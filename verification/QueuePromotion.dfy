/** A run that shows why the message-by-message agreement is claimed only when accepted promotions land. */
module QueuePromotion {
  import opened Prelude
  import opened RuntimeQueue
  import opened QueueProtocol
  import opened QueueInvariant
  import opened QueueSteps
  import opened QueueRefinement
  import Strings

  const T: Stamp := Stamp("e", "t")

  /** Everything about a state except its event log. */
  ghost predicate Looks(s: System, messages: seq<Message>, removed: seq<Id>, steer: seq<Entry>, followUp: seq<Entry>,
                        nextHandle: Handle, call: Call, delivered: seq<Delivery>, recorded: seq<Delivery>)
  {
    && s.mirror.messages == messages && s.mirror.removed == removed && s.mirror.promoted == PromotingIds(call)
    && s.steer == steer && s.followUp == followUp && s.nextHandle == nextHandle && s.call == call
    && s.delivered == delivered && s.recorded == recorded
  }

  function Msg(id: Id, kind: Kind, status: Status, handle: Option<Handle>): Message {
    Message(id, kind, "x", None, status, "t", handle)
  }

  lemma TrimX()
    ensures Strings.Trim("x") == "x"
  {
    Strings.TrimFixed("x");
  }

  lemma Enqueued(s: System, ms: seq<Message>, steer: seq<Entry>, followUp: seq<Entry>, h: Handle, id: Id, kind: Kind)
    requires Looks(s, ms, [], steer, followUp, h, Idle, [], [])
    requires id !in s.used && |ms| < MAX_MESSAGES && Find(ms, Query(id, ANY_KIND, false)) == |ms|
    ensures var steps := [StartEnqueue(kind, "x", None, id, "t"), AgentEnqueue(T), FinishEnqueue];
            var e := Entry(h, Sent(id, "x"));
            && Legal(s, steps)
            && Execute(s, steps).used == s.used + {id}
            && Looks(Execute(s, steps), ms + [Msg(id, kind, Pending, Some(h))], [],
                     if kind == Steer then steer + [e] else steer,
                       if kind == FollowUp then followUp + [e] else followUp,
                     h + 1, Idle, [], [])
  {
    TrimX();
    hide Find, Strings.Trim;
    var m := Msg(id, kind, Pending, None);
    var s1 := Next(s, StartEnqueue(kind, "x", None, id, "t"));
    assert s1.mirror.messages == ms + [m];
    var s2 := Next(s1, AgentEnqueue(T));
    CallbackEffect(WithLane(s1, kind, Lane(s1, kind) + [Entry(h, Sent(id, "x"))]).(nextHandle := h + 1,
        call := Attaching(id, h)),
                   OnEnqueued(kind, 1, |Lane(s1, kind)| + 1), T);
    var s3 := Next(s2, FinishEnqueue);
    FindLast(ms, m);
    assert s3.mirror.messages == ms + [m.(handle := Some(h))];
    var steps := [StartEnqueue(kind, "x", None, id, "t"), AgentEnqueue(T), FinishEnqueue];
    Three(s, steps, s1, s2, s3);
  }

  lemma FindLast(ms: seq<Message>, m: Message)
    requires Find(ms, Query(m.id, ANY_KIND, false)) == |ms|
    ensures Find(ms + [m], Query(m.id, ANY_KIND, false)) == |ms|
  {
    hide Find;
    var q := Query(m.id, ANY_KIND, false);
    var i := Find(ms + [m], q);
    assert m.kind == Steer || m.kind == FollowUp;
    assert Matches(m, q);
    assert forall j :: 0 <= j < |ms| ==> (ms + [m])[j] == ms[j];
    assert (ms + [m])[|ms|] == m;
  }

  lemma Three(s: System, steps: seq<Step>, s1: System, s2: System, s3: System)
    requires |steps| == 3
    requires Enabled(s, steps[0]) && Spares(s, steps[0]) && s1 == Next(s, steps[0])
    requires Enabled(s1, steps[1]) && Spares(s1, steps[1]) && s2 == Next(s1, steps[1])
    requires Enabled(s2, steps[2]) && Spares(s2, steps[2]) && s3 == Next(s2, steps[2])
    ensures Legal(s, steps) && Execute(s, steps) == s3
  {
    hide Enabled, Spares, Next;
    var last, rest := [steps[2]], steps[1..];
    assert last[1..] == [] && rest[1..] == last && rest[0] == steps[1];
    assert Legal(s3, []) && Execute(s3, []) == s3;
    assert Legal(s2, last) && Execute(s2, last) == s3;
    assert Legal(s1, rest) && Execute(s1, rest) == s3;
  }

  lemma {:induction false} ExecuteConcat(s: System, a: seq<Step>, b: seq<Step>)
    requires Legal(s, a) && Legal(Execute(s, a), b)
    ensures Legal(s, a + b) && Execute(s, a + b) == Execute(Execute(s, a), b)
    decreases |a|
  {
    hide Enabled, Spares, Next;
    if a == [] {
      assert a + b == b;
    } else {
      assert (a + b)[1..] == a[1..] + b && (a + b)[0] == a[0];
      ExecuteConcat(Next(s, a[0]), a[1..], b);
    }
  }

  const H0: Entry := Entry(0, Sent("P", "x"))
  const H1: Entry := Entry(1, Sent("A", "x"))
  const H2: Entry := Entry(2, Sent("P", "x"))

  lemma DifferentIds()
    ensures "P" != "A"
  {
    assert "P"[0] != "A"[0];
  }

  lemma FindFirst(ms: seq<Message>, q: Query)
    requires ms != [] && Matches(ms[0], q)
    ensures Find(ms, q) == 0
  {
  }

  /** The agent puts the promoted entry behind the steering message; the mirror keeps the list order. */
  lemma PromotesBehind(s: System)
    requires Looks(s, [Msg("P", FollowUp, Pending, Some(0)), Msg("A", Steer, Pending, Some(1))], [], [H1], [H0], 2,
                   Promoting("P", 0), [], [])
    ensures Looks(PromoteInAgent(s, true, 1, T),
                  [Msg("P", Steer, Pending, Some(0)), Msg("A", Steer, Pending, Some(1))], [], [H1, H2], [], 3,
                  PromoteHit("P", 2), [], [])
  {
    DifferentIds();
    var ms := s.mirror.messages;
    assert Locate(s.followUp, 0) == 0;
    assert Without([H0], 0) == [] && [H1][..1] + [H2] + [H1][1..] == [H1, H2];
    hide Locate, Transfer;
    var s1 := s.(followUp := [], steer := [H1, H2], nextHandle := 3, call := PromoteHit("P", 2));
    CallbackEffect(s1, OnTransferred(FollowUp, Steer, 1, 0, 2), T);
    assert DistinctIds(ms);
    TransferredMirror(s.mirror, 0, "t");
    assert PromoteInAgent(s, true, 1, T) == Callback(s1, OnTransferred(FollowUp, Steer, 1, 0, 2), T);
  }

  lemma Promoted(s: System)
    requires Looks(s, [Msg("P", FollowUp, Pending, Some(0)), Msg("A", Steer, Pending, Some(1))], [], [H1], [H0], 2,
                   Idle, [], [])
    ensures Legal(s, PROMOTE_P)
    ensures Looks(Execute(s, PROMOTE_P), [Msg("P", Steer, Pending, Some(2)), Msg("A", Steer, Pending, Some(1))], [],
                  [H1, H2], [], 3, Idle, [], [])
  {
    hide PromoteInAgent, Find;
    var ms := s.mirror.messages;
    var p, a := Msg("P", Steer, Pending, Some(0)), Msg("A", Steer, Pending, Some(1));
    FindFirst(ms, Query("P", ANY_KIND, false));
    var s1 := Next(s, StartPromote("P"));
    var s2 := Next(s1, AgentPromote(true, 1, T));
    PromotesBehind(s1);
    FindFirst([p, a], Query("P", ANY_KIND, true));
    var s3 := Next(s2, FinishPromote("t"));
    assert [p, a][0 := p.(handle := Some(2))] == [Msg("P", Steer, Pending, Some(2)), a];
    Three(s, PROMOTE_P, s1, s2, s3);
  }

  const A_TAKEN: seq<Delivery> := [Delivery(Steer, Sent("A", "x"))]
  const P_RECORDED: seq<Delivery> := [Delivery(Steer, Sent("P", "x"))]

  /** The mirror takes the first steering message in list order, the agent the first in its queue. */
  lemma TakesTheOther(s: System)
    requires Looks(s, [Msg("P", Steer, Pending, Some(2)), Msg("A", Steer, Pending, Some(1))], ["P"], [H1, H2], [], 3,
                   Cancelling("P", 2), [], [])
    ensures Looks(ConsumeFromLane(s, Steer, 1, T),
                  [Msg("P", Steer, Consumed, Some(2)), Msg("A", Steer, Pending, Some(1))], ["P"], [H2], [], 3,
                  Cancelling("P", 2), A_TAKEN, P_RECORDED)
  {
    var p, a := Msg("P", Steer, Pending, Some(2)), Msg("A", Steer, Pending, Some(1));
    var p' := p.(status := Consumed);
    assert MarkFirst([p, a], Steer, [], 1, Consumed, "t") == [p', a]
        && MarkedBy([p, a], Steer, [], 1, Consumed, "t") == [p'];
    hide MarkFirst, MarkedBy;
    assert Sents([H1, H2][..1]) == [H1.sent] && [H1, H2][1..] == [H2] && SentsOf([p']) == [Sent("P", "x")];
    assert Deliveries(Steer, [H1.sent]) == A_TAKEN;
    assert Deliveries(Steer, [Sent("P", "x")]) == P_RECORDED;
    var s' := ConsumeFromLane(s, Steer, 1, T);
    CallbackEffect(s.(steer := [H2], delivered := A_TAKEN), OnConsumed(Steer, 1, 1), T);
    assert s' == Callback(s.(steer := [H2], delivered := A_TAKEN), OnConsumed(Steer, 1, 1), T);
  }

  lemma SecondIsMarked(p: Message, a: Message)
    requires p.status != Pending && a.status == Pending && a.kind == Steer && a.updatedAt == "t"
    ensures MarkFirst([p, a], Steer, [], 1, Cancelled, "t") == [p, a.(status := Cancelled)]
  {
    assert [p, a][1..] == [a];
    assert MarkFirst([a], Steer, [], 1, Cancelled, "t") == [a.(status := Cancelled)];
  }

  /** The registered id is no longer pending, so the removal falls back to the first pending message. */
  lemma CancelsTheOther(s: System)
    requires Looks(s, [Msg("P", Steer, Consumed, Some(2)), Msg("A", Steer, Pending, Some(1))], ["P"], [H2], [], 3,
                   Cancelling("P", 2), A_TAKEN, P_RECORDED)
    ensures Looks(CancelInAgent(s, T), [Msg("P", Steer, Consumed, Some(2)), Msg("A", Steer, Cancelled, Some(1))], [],
                  [], [], 3,
                  CancelHit("P"), A_TAKEN, P_RECORDED)
  {
    hide MarkFirst, Locate, Remove;
    DifferentIds();
    var p, a := Msg("P", Steer, Consumed, Some(2)), Msg("A", Steer, Pending, Some(1));
    SecondIsMarked(p, a);
    assert s.steer[0].handle == 2;
    assert |Without([H2], 0)| == 0;
    RemovedMirror(s.mirror, 0, "t");
    CallbackEffect(s.(steer := []), OnRemoved(Steer, 1, 0), T);
    assert CancelInAgent(s, T) == Callback(s.(steer := []), OnRemoved(Steer, 1, 0), T).(call := CancelHit("P"));
  }

  lemma ConsumedWhileCancelling(s: System)
    requires Looks(s, [Msg("P", Steer, Pending, Some(2)), Msg("A", Steer, Pending, Some(1))], [], [H1, H2], [], 3,
                   Idle, [], [])
    ensures Legal(s, CANCEL_P)
    ensures Looks(Execute(s, CANCEL_P), [Msg("P", Steer, Consumed, Some(2)), Msg("A", Steer, Cancelled, Some(1))], [],
                  [], [], 3,
                  CancelHit("P"), A_TAKEN, P_RECORDED)
  {
    hide ConsumeFromLane, CancelInAgent, Find;
    FindFirst(s.mirror.messages, Query("P", ANY_KIND, false));
    var s1 := Next(s, StartCancel("P"));
    assert s1.mirror.removed == ["P"];
    var s2 := Next(s1, Consume(Steer, 1, T));
    TakesTheOther(s1);
    var s3 := Next(s2, AgentCancel(T));
    CancelsTheOther(s2);
    Three(s, CANCEL_P, s1, s2, s3);
  }

  const ENQUEUE_P: seq<Step> := [StartEnqueue(FollowUp, "x", None, "P", "t"), AgentEnqueue(T), FinishEnqueue]
  const ENQUEUE_A: seq<Step> := [StartEnqueue(Steer, "x", None, "A", "t"), AgentEnqueue(T), FinishEnqueue]
  const PROMOTE_P: seq<Step> := [StartPromote("P"), AgentPromote(true, 1, T), FinishPromote("t")]
  const CANCEL_P: seq<Step> := [StartCancel("P"), Consume(Steer, 1, T), AgentCancel(T)]

  lemma BothEnqueued()
    ensures Legal(Start, ENQUEUE_P) && Legal(Execute(Start, ENQUEUE_P), ENQUEUE_A)
    ensures Looks(Execute(Execute(Start, ENQUEUE_P), ENQUEUE_A),
                  [Msg("P", FollowUp, Pending, Some(0)), Msg("A", Steer, Pending, Some(1))], [], [H1], [H0], 2, Idle,
                    [], [])
  {
    hide Legal, Execute;
    Enqueued(Start, [], [], [], 0, "P", FollowUp);
    var s1 := Execute(Start, ENQUEUE_P);
    var p := Msg("P", FollowUp, Pending, Some(0));
    assert [] + [p] == [p] && [] + [H0] == [H0] && [] + [H1] == [H1];
    DifferentIds();
    assert !Matches(p, Query("A", ANY_KIND, false));
    assert Find([p], Query("A", ANY_KIND, false)) == 1;
    Enqueued(s1, [p], [], [H0], 1, "A", Steer);
  }

  /**
   A follow-up is promoted behind a steering message; while it is being cancelled the agent consumes
   the other one. The record then names the wrong message, the consumed one shows as Cancelled, and
   the last lock region overwrites a final status. Counts still agree.
   */
  lemma PromotionMayMixUpMessages()
    ensures exists steps :: Legal(Start, steps)
              && Execute(Start, steps).delivered == A_TAKEN
              && Execute(Start, steps).recorded == P_RECORDED
              && OverwritesFinal(Execute(Start, steps), FinishCancel("t"))
  {
    hide Legal, Execute;
    BothEnqueued();
    var s1 := Execute(Start, ENQUEUE_P);
    var s2 := Execute(s1, ENQUEUE_A);
    Promoted(s2);
    var s3 := Execute(s2, PROMOTE_P);
    ConsumedWhileCancelling(s3);
    ExecuteConcat(s2, PROMOTE_P, CANCEL_P);
    ExecuteConcat(s1, ENQUEUE_A, PROMOTE_P + CANCEL_P);
    var steps := ENQUEUE_P + (ENQUEUE_A + (PROMOTE_P + CANCEL_P));
    ExecuteConcat(Start, ENQUEUE_P, ENQUEUE_A + (PROMOTE_P + CANCEL_P));
    var s := Execute(Start, steps);
    assert Find(s.mirror.messages, Query("P", ANY_KIND, false)) == 0;
  }
}
