/**
 The one way the counts go wrong: the full list drops its oldest message while that is still pending.
 The exact condition for every step and every run, and a run that meets it.
 */
module QueueTrim {
  import opened Prelude
  import opened RuntimeQueue
  import opened QueueProtocol
  import opened QueueInvariant
  import opened QueueSteps
  import opened QueueRefinement
  import opened QueuePromotion
  import Strings

  /** The mirror shows as many pending messages of each kind as that queue holds, and the one on its way in. */
  ghost predicate CountsHold(s: System) {
    forall kind :: |PendingOf(s.mirror.messages, kind)| == |Lane(s, kind)| + |InFlight(s.call, kind)|
  }

  lemma InvCounts(s: System)
    requires Inv(s)
    ensures CountsHold(s)
  {
    hide PendingOf, Identified;
    forall kind ensures |PendingOf(s.mirror.messages, kind)| == |Lane(s, kind)| + |InFlight(s.call, kind)| {
      assert kind == Steer || kind == FollowUp;
    }
  }

  lemma TailPending(ms: seq<Message>, m: Message)
    requires ms != [] && ms[0].status == Pending
    ensures |PendingOf(ms[1..] + [m], ms[0].kind)| == |PendingOf(ms, ms[0].kind)| - 1 + |Own(m, ms[0].kind)|
  {
    var k := ms[0].kind;
    PendingConcat(ms[1..], [m], k);
    assert PendingOf([m], k) == Own(m, k) + PendingOf([], k);
  }

  lemma TrimLosesCount(s: System, step: Step)
    requires Inv(s) && Enabled(s, step) && !Spares(s, step)
    ensures !CountsHold(Next(s, step))
  {
    hide PendingOf, Inv, DistinctIds, CallNamed, CountsHold, Next;
    NamesInside(s);
    InvCounts(s);
    var ms, s' := s.mirror.messages, Next(s, step);
    var m := NewMessage(step.id, step.kind, Strings.Trim(step.raw), step.metadata, step.now);
    AppendedSystem(s, step);
    hide Append, Strings.Trim, Spares, Enabled;
    AppendTail(s.mirror, m);
    TailPending(ms, m);
    CountOf(s, ms[0].kind);
    if CountsHold(s') {
      CountOf(s', ms[0].kind);
    }
  }

  /** What an enqueue with a text does to everything the counts depend on. */
  lemma AppendedSystem(s: System, step: Step)
    requires Enabled(s, step) && step.StartEnqueue? && Strings.Trim(step.raw) != ""
    ensures var s' := Next(s, step);
      var m := NewMessage(step.id, step.kind, Strings.Trim(step.raw), step.metadata, step.now);
      && s'.mirror == Append(s.mirror, m) && s'.steer == s.steer && s'.followUp == s.followUp
      && forall kind :: InFlight(s.call, kind) == [] && InFlight(s'.call, kind) == Own(m, kind)
  {
    hide Append, Strings.Trim;
  }

  lemma CountOf(s: System, kind: Kind)
    requires CountsHold(s)
    ensures |PendingOf(s.mirror.messages, kind)| == |Lane(s, kind)| + |InFlight(s.call, kind)|
  {
  }

  /**
   The exact condition, for every step: the counts still hold, and with them the whole invariant, if and only if
   the step drops no pending message.
   */
  lemma StepCountsIff(s: System, step: Step)
    requires Inv(s) && Enabled(s, step)
    ensures CountsHold(Next(s, step)) <==> Spares(s, step)
    ensures Inv(Next(s, step)) <==> Spares(s, step)
  {
    if Spares(s, step) {
      StepKeeps(s, step);
      InvCounts(Next(s, step));
    } else {
      TrimLosesCount(s, step);
      if Inv(Next(s, step)) {
        InvCounts(Next(s, step));
      }
    }
    hide Next, Inv, Spares, CountsHold;
  }

  // ---------------------------------------------------------------- whole runs

  /** The steps can be taken one after another, whatever an append drops. */
  ghost predicate Runnable(s: System, steps: seq<Step>)
    decreases |steps|
  {
    steps != [] ==> Enabled(s, steps[0]) && Runnable(Next(s, steps[0]), steps[1..])
  }

  ghost predicate CountsThroughout(s: System, steps: seq<Step>)
    requires Runnable(s, steps)
    decreases |steps|
  {
    CountsHold(s) && (steps != [] ==> CountsThroughout(Next(s, steps[0]), steps[1..]))
  }

  /**
   The exact condition, for every run: the counts hold before and after every step if and only if no append
   drops a pending message.
   */
  lemma {:induction false} CountsThroughoutIff(s: System, steps: seq<Step>)
    requires Inv(s) && Runnable(s, steps)
    ensures CountsThroughout(s, steps) <==> Legal(s, steps)
    decreases |steps|
  {
    InvCounts(s);
    if steps != [] {
      StepCountsIff(s, steps[0]);
      hide Next, Inv, Spares, CountsHold;
      if Spares(s, steps[0]) {
        CountsThroughoutIff(Next(s, steps[0]), steps[1..]);
      } else {
        assert !CountsThroughout(Next(s, steps[0]), steps[1..]);
      }
    }
  }

  // ---------------------------------------------------------------- a run that fills the list

  function Name(n: nat): Id {
    seq(n, i => 'x')
  }

  function Filling(n: nat): seq<Step> {
    if n == 0 then []
    else Filling(n - 1) + EnqueueNth(n - 1)
  }

  function Filled(n: nat): (ms: seq<Message>)
    ensures |ms| == n && forall i :: 0 <= i < n ==> ms[i] == Msg(Name(i), Steer, Pending, Some(i))
  {
    seq(n, i => if i >= 0 then Msg(Name(i), Steer, Pending, Some(i)) else Msg("", Steer, Pending, None))
  }

  function FilledLane(n: nat): (l: seq<Entry>)
    ensures |l| == n && forall i :: 0 <= i < n ==> l[i] == Entry(i, Sent(Name(i), "x"))
  {
    seq(n, i requires 0 <= i => Entry(i, Sent(Name(i), "x")))
  }

  lemma NoneNamed(n: nat)
    ensures Find(Filled(n), Query(Name(n), ANY_KIND, false)) == n
  {
    hide Find;
    var i := Find(Filled(n), Query(Name(n), ANY_KIND, false));
    if i < n {
      assert |Name(i)| == i && |Name(n)| == n;
    }
  }

  /** The list and the steering queue hold the first n messages, and every id in use is shorter than n. */
  ghost predicate Holding(s: System, n: nat) {
    Looks(s, Filled(n), [], FilledLane(n), [], n, Idle, [], []) && forall id :: id in s.used ==> |id| < n
  }

  function EnqueueNth(n: nat): seq<Step> {
    [StartEnqueue(Steer, "x", None, Name(n), "t"), AgentEnqueue(T), FinishEnqueue]
  }

  lemma HoldingNext(s: System, n: nat)
    requires n < MAX_MESSAGES && Holding(s, n)
    ensures Legal(s, EnqueueNth(n)) && Holding(Execute(s, EnqueueNth(n)), n + 1)
  {
    hide Find, Legal, Execute;
    NoneNamed(n);
    assert |Name(n)| == n;
    Enqueued(s, Filled(n), FilledLane(n), [], n, Name(n), Steer);
    assert Filled(n + 1) == Filled(n) + [Msg(Name(n), Steer, Pending, Some(n))];
    assert FilledLane(n + 1) == FilledLane(n) + [Entry(n, Sent(Name(n), "x"))];
  }

  lemma HoldingNone()
    ensures Legal(Start, []) && Holding(Execute(Start, []), 0)
  {
    assert Filled(0) == [] && FilledLane(0) == [];
  }

  lemma {:induction false} FillingRuns(n: nat)
    requires n <= MAX_MESSAGES
    ensures Legal(Start, Filling(n)) && Holding(Execute(Start, Filling(n)), n)
  {
    hide Holding, Legal, Execute, EnqueueNth;
    if n == 0 {
      HoldingNone();
    } else {
      FillingRuns(n - 1);
      HoldingNext(Execute(Start, Filling(n - 1)), n - 1);
      ExecuteConcat(Start, Filling(n - 1), EnqueueNth(n - 1));
    }
  }

  /**
   Eighty messages enqueued and none consumed: after one more the mirror shows fewer pending messages than the
   queue holds.
   */
  lemma FullListLosesCount()
    ensures Legal(Start, Filling(MAX_MESSAGES))
    ensures var s := Execute(Start, Filling(MAX_MESSAGES));
      var step := StartEnqueue(Steer, "x", None, Name(MAX_MESSAGES), "t");
      Enabled(s, step) && !CountsHold(Next(s, step))
  {
    FillingRuns(MAX_MESSAGES);
    StartInv();
    RunKeeps(Start, Filling(MAX_MESSAGES));
    var s := Execute(Start, Filling(MAX_MESSAGES));
    hide Legal, Execute, Filling, Inv;
    TrimX();
    hide Strings.Trim;
    assert |Name(MAX_MESSAGES)| == MAX_MESSAGES;
    TrimLosesCount(s, StartEnqueue(Steer, "x", None, Name(MAX_MESSAGES), "t"));
  }
}
