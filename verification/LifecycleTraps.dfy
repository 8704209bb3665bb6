/**
 Three schedules, each from any sound state, in which the end of a run does not leave what a reader of
 one function would expect: a late cancel mark, a compact run settled twice, and a checkpointed row
 that streams forever.
 */
module LifecycleTraps {
  import opened Prelude
  import Strings
  import opened RunManager
  import opened Lifecycle

  lemma Two(w: World, a: Step, b: Step)
    ensures After(w, [a, b]) == Next(Next(w, a), b)
  {
    assert [a, b][1..] == [b];
    One(Next(w, a), b);
  }

  lemma One(w: World, a: Step)
    ensures After(w, [a]) == Next(w, a)
  {
    assert [a][1..] == [];
    assert After(Next(w, a), [a][1..]) == Next(w, a);
  }

  lemma {:induction false} AfterConcat(w: World, a: seq<Step>, b: seq<Step>)
    ensures After(w, a + b) == After(After(w, a), b)
    decreases |a|
  {
    if a == [] {
      assert a + b == b;
    } else {
      assert (a + b)[1..] == a[1..] + b;
      AfterConcat(Next(w, a[0]), a[1..], b);
    }
  }

  lemma {:induction false} ExecutableConcat(w: World, a: seq<Step>, b: seq<Step>)
    requires Executable(w, a) && Executable(After(w, a), b)
    ensures Executable(w, a + b)
    decreases |a|
  {
    if a == [] {
      assert a + b == b;
    } else {
      assert (a + b)[1..] == a[1..] + b;
      ExecutableConcat(Next(w, a[0]), a[1..], b);
    }
  }

  /** Steps that are always enabled. */
  predicate Unguarded(step: Step) {
    !step.Registers? && !step.StoresMessage? && !step.StoresRun?
  }

  lemma {:induction false} UnguardedRun(w: World, steps: seq<Step>)
    requires forall i :: 0 <= i < |steps| ==> Unguarded(steps[i])
    ensures Executable(w, steps)
    decreases |steps|
  {
    hide Next;
    if steps != [] {
      assert Unguarded(steps[0]);
      UnguardedRun(Next(w, steps[0]), steps[1..]);
    }
  }

  /**
   A cancel whose mark lands before the finishing event and whose status write lands after it: the ended run is
   on record as cancelling.
   */
  lemma LateCancelMark(w: World, run: Id, e: StreamEvent, minted: Id)
    requires Inv(w) && run in w.s.active && run in w.s.runStatus && Finishing(e)
    ensures Executable(w, [MarksCancel(run), Handles(run, e, minted)] + [StoresCancelling(run)])
    ensures var n := After(w, [MarksCancel(run), Handles(run, e, minted)] + [StoresCancelling(run)]);
      run !in n.s.active && n.s.runStatus == w.s.runStatus[run := Cancelling]
  {
    var a, b, c := MarksCancel(run), Handles(run, e, minted), StoresCancelling(run);
    UnguardedRun(w, [a, b] + [c]);
    var w1 := Next(w, a);
    StepKeeps(w, a);
    MarkIs(w, run);
    hide Next, After, Executable;
    FinishedThenMarked(w1, run, e, minted);
    hide Inv, Finishing;
    Two(w, a, b);
    AfterConcat(w, [a, b], [c]);
    One(Next(w1, b), c);
  }

  lemma FinishedThenMarked(w: World, run: Id, e: StreamEvent, minted: Id)
    requires Inv(w) && run in w.s.active && run in w.s.runStatus && Finishing(e)
    ensures var n := Next(Next(w, Handles(run, e, minted)), StoresCancelling(run));
      run !in n.s.active && n.s.runStatus == w.s.runStatus[run := Cancelling]
  {
    hide Handle, Quiet, SettledRows, Sound;
    FinishingSettles(w.s, run, e, minted);
  }

  lemma MarkIs(w: World, run: Id)
    requires run in w.s.active
    ensures var n := Next(w, MarksCancel(run));
      n.s == w.s.(active := n.s.active) && run in n.s.active && n.issued == w.issued
  {
  }

  /** The compact run is set up, cancelled, and settled by the event the cancel sends for a run without a session. */
  function CancelledCompact(compact: Id, thread: Id, minted: Id): seq<Step> {
    [Registers(compact, thread), StoresRun(compact, Running), MarksCancel(compact), StoresCancelling(compact),
     Handles(compact, RunCancelled, minted)]
  }

  /** Another run starts on the thread before the background task of the compact run comes to its end. */
  function RunThenCompactEnd(compact: Id, run: Id, thread: Id, minted: Id, status: RunStatus): seq<Step> {
    [Registers(run, thread), StoresRun(run, Created), Handles(run, RunStarted, minted),
     Finalizes(compact, thread, status), Removes(compact)]
  }

  /** The world once the compact run is set up and marked. */
  function MarkedCompact(w: World, compact: Id, thread: Id): World {
    World(State(w.s.active[compact := ActiveRun(thread, None, None, None, true)], w.s.rows,
                w.s.runStatus[compact := Cancelling], w.s.threadStatus),
          w.issued + {compact})
  }

  lemma SetupMarks(w: World, compact: Id, thread: Id)
    requires compact !in w.issued && compact !in w.s.runStatus && !HasRunOn(w.s, thread)
    ensures var a, b, c, d := Registers(compact, thread), StoresRun(compact, Running), MarksCancel(compact),
            StoresCancelling(compact);
      && Enabled(w, a) && Enabled(Next(w, a), b)
      && Next(Next(Next(Next(w, a), b), c), d) == MarkedCompact(w, compact, thread)
  {
    RegisterIs(w, compact, thread);
    hide Register, HasRunOn;
    MarksAre(Next(w, Registers(compact, thread)), compact);
  }

  lemma SetupKeeps(w: World, compact: Id, thread: Id)
    requires Inv(w) && compact !in w.issued && compact !in w.s.runStatus && !HasRunOn(w.s, thread)
    ensures Inv(MarkedCompact(w, compact, thread))
  {
    var a, b, c, d := Registers(compact, thread), StoresRun(compact, Running), MarksCancel(compact),
        StoresCancelling(compact);
    SetupMarks(w, compact, thread);
    hide Next, Inv, HasRunOn, MarkedCompact;
    var w1 := Next(w, a);
    StepKeeps(w, a);
    StepKeeps(w1, b);
    StepKeeps(Next(w1, b), c);
    StepKeeps(Next(Next(w1, b), c), d);
  }

  lemma RegisterIs(w: World, run: Id, thread: Id)
    requires !HasRunOn(w.s, thread)
    ensures Next(w, Registers(run, thread)) ==
            World(w.s.(active := w.s.active[run := ActiveRun(thread, None, None, None, false)]), w.issued + {run})
  {
  }

  lemma MarksAre(w: World, run: Id)
    requires run in w.s.active && run !in w.s.runStatus
    ensures Next(Next(Next(w, StoresRun(run, Running)), MarksCancel(run)), StoresCancelling(run)) ==
            w.(s := w.s.(active := w.s.active[run := w.s.active[run].(cancelRequested := true)],
                         runStatus := w.s.runStatus[run := Cancelling]))
  {
  }

  lemma CancelledCompactRuns(w: World, compact: Id, thread: Id, minted: Id)
    requires Inv(w) && compact !in w.issued && compact !in w.s.runStatus && !HasRunOn(w.s, thread)
            && thread in w.s.threadStatus
    ensures Executable(w, CancelledCompact(compact, thread, minted))
    ensures var n := After(w, CancelledCompact(compact, thread, minted));
      && n.s.runStatus == w.s.runStatus[compact := Cancelled]
      && n.s.active == w.s.active && n.s.threadStatus == w.s.threadStatus[thread := ThreadIdle]
      && n.issued == w.issued + {compact}
  {
    var v := MarkedCompact(w, compact, thread);
    assert compact !in w.s.active;
    SetupMarks(w, compact, thread);
    SetupKeeps(w, compact, thread);
    Five(w, CancelledCompact(compact, thread, minted));
    hide Handle, Inv, Quiet, SettledRows, HasRunOn, After, Executable, Register;
    MarkedCompactEnds(w, compact, thread, minted);
  }

  lemma MarkedCompactEnds(w: World, compact: Id, thread: Id, minted: Id)
    requires compact !in w.s.active && thread in w.s.threadStatus && Sound(MarkedCompact(w, compact, thread).s)
    ensures var n := Next(MarkedCompact(w, compact, thread), Handles(compact, RunCancelled, minted));
      && n.s.runStatus == w.s.runStatus[compact := Cancelled]
      && n.s.active == w.s.active && n.s.threadStatus == w.s.threadStatus[thread := ThreadIdle]
      && n.issued == w.issued + {compact}
  {
    hide Handle, Sound, Quiet, SettledRows;
    var v := MarkedCompact(w, compact, thread);
    FinishingSettles(v.s, compact, RunCancelled, minted);
    assert v.s.active - {compact} == w.s.active;
  }

  lemma Five(w: World, steps: seq<Step>)
    requires |steps| == 5
    ensures After(w, steps) == Next(Next(Next(Next(Next(w, steps[0]), steps[1]), steps[2]), steps[3]), steps[4])
    ensures var w1 := Next(w, steps[0]);
      var w2 := Next(w1, steps[1]);
      var w3 := Next(w2, steps[2]);
      var w4 := Next(w3, steps[3]);
      Executable(w, steps) <==>
      (Enabled(w, steps[0]) && Enabled(w1, steps[1]) && Enabled(w2, steps[2]) && Enabled(w3, steps[3])
       && Enabled(w4, steps[4]))
  {
    hide Next, Enabled;
    var s1, s2, s3, s4 := steps[1..], steps[2..], steps[3..], steps[4..];
    assert s1[1..] == s2 && s2[1..] == s3 && s3[1..] == s4 && s4[1..] == [];
    var w1 := Next(w, steps[0]);
    var w2 := Next(w1, steps[1]);
    var w3 := Next(w2, steps[2]);
    var w4 := Next(w3, steps[3]);
    assert After(w4, s4) == Next(w4, steps[4]) && (Executable(w4, s4) <==> Enabled(w4, steps[4]));
    assert After(w3, s3) == After(w4, s4) && (Executable(w3, s3) <==> Enabled(w3, steps[3]) && Executable(w4, s4));
    assert After(w2, s2) == After(w3, s3) && (Executable(w2, s2) <==> Enabled(w2, steps[2]) && Executable(w3, s3));
    assert After(w1, s1) == After(w2, s2) && (Executable(w1, s1) <==> Enabled(w1, steps[1]) && Executable(w2, s2));
  }

  /**
   A compact run that a cancel has already settled is settled again when its background task ends:
   its Cancelled status is overwritten, and the thread is shown as the compact run ended although
   another run is active on it.
   */
  lemma CompactSettledTwice(w: World, compact: Id, run: Id, thread: Id, minted: Id, status: RunStatus)
    requires Inv(w) && compact !in w.issued && run !in w.issued + {compact} && !HasRunOn(w.s, thread)
    requires compact !in w.s.runStatus && run !in w.s.runStatus && thread in w.s.threadStatus
    ensures Executable(w, CancelledCompact(compact, thread, minted)
                       + RunThenCompactEnd(compact, run, thread, minted, status))
    ensures var mid := After(w, CancelledCompact(compact, thread, minted));
      mid.s.runStatus == w.s.runStatus[compact := Cancelled]
    ensures var steps := CancelledCompact(compact, thread, minted)
            + RunThenCompactEnd(compact, run, thread, minted, status);
      var n := After(w, steps);
      && n.s.runStatus == w.s.runStatus[compact := status][run := Running]
      && run in n.s.active && n.s.active[run].threadId == thread
      && n.s.threadStatus == w.s.threadStatus[thread := ToThreadStatus(status)]
  {
    var first := CancelledCompact(compact, thread, minted);
    var second := RunThenCompactEnd(compact, run, thread, minted, status);
    assert compact !in w.s.active;
    hide CancelledCompact, RunThenCompactEnd, Inv, Executable, After;
    CancelledCompactRuns(w, compact, thread, minted);
    AfterConcat(w, first, second);
    var v := After(w, first);
    assert HasRunOn(v.s, thread) == HasRunOn(w.s, thread);
    CompactEndRuns(v, compact, run, thread, minted, status);
    ExecutableConcat(w, first, second);
    hide Next, HasRunOn;
    Overwritten(w.s.runStatus, compact, run, Cancelled, status, Running);
    SetAgain(w.s.threadStatus, thread, ThreadIdle, ToThreadStatus(status));
  }

  lemma SetAgain<K, V>(m: map<K, V>, k: K, first: V, last: V)
    ensures m[k := first][k := last] == m[k := last]
  {
  }

  lemma Overwritten<K, V>(m: map<K, V>, k: K, l: K, first: V, last: V, other: V)
    requires k != l
    ensures m[k := first][l := other][k := last] == m[k := last][l := other]
  {
  }

  lemma CompactEndRuns(v: World, compact: Id, run: Id, thread: Id, minted: Id, status: RunStatus)
    requires run !in v.issued && run !in v.s.runStatus && !HasRunOn(v.s, thread)
    requires compact !in v.s.active && compact != run && compact in v.s.runStatus && thread in v.s.threadStatus
    ensures Executable(v, RunThenCompactEnd(compact, run, thread, minted, status))
    ensures var n := After(v, RunThenCompactEnd(compact, run, thread, minted, status));
      && n.s.runStatus == v.s.runStatus[run := Running][compact := status]
      && run in n.s.active && n.s.active[run].threadId == thread
      && n.s.threadStatus == v.s.threadStatus[thread := ToThreadStatus(status)]
  {
    hide Executable, After, Next, Enabled, HasRunOn;
    Five(v, RunThenCompactEnd(compact, run, thread, minted, status));
    CompactEndEnabled(v, compact, run, thread, minted, status);
    CompactEndOverwrites(v, compact, run, thread, minted, status);
  }

  lemma CompactEndEnabled(v: World, compact: Id, run: Id, thread: Id, minted: Id, status: RunStatus)
    requires run !in v.issued && run !in v.s.runStatus && !HasRunOn(v.s, thread)
    ensures var steps := RunThenCompactEnd(compact, run, thread, minted, status);
      var w1 := Next(v, steps[0]);
      var w2 := Next(w1, steps[1]);
      var w3 := Next(w2, steps[2]);
      var w4 := Next(w3, steps[3]);
      Enabled(v, steps[0]) && Enabled(w1, steps[1]) && Enabled(w2, steps[2]) && Enabled(w3, steps[3])
        && Enabled(w4, steps[4])
  {
    RegisterIs(v, run, thread);
    hide Next;
  }

  lemma CompactEndOverwrites(v: World, compact: Id, run: Id, thread: Id, minted: Id, status: RunStatus)
    requires compact !in v.s.active && compact != run && !HasRunOn(v.s, thread)
    requires compact in v.s.runStatus && thread in v.s.threadStatus
    ensures var steps := RunThenCompactEnd(compact, run, thread, minted, status);
      var n := Next(Next(Next(Next(Next(v, steps[0]), steps[1]), steps[2]), steps[3]), steps[4]);
      && n.s.runStatus == v.s.runStatus[run := Running][compact := status]
      && run in n.s.active && n.s.active[run].threadId == thread
      && n.s.threadStatus == v.s.threadStatus[thread := ToThreadStatus(status)]
  {
    var steps := RunThenCompactEnd(compact, run, thread, minted, status);
    var w1 := Next(v, steps[0]);
    assert w1.s == v.s.(active := v.s.active[run := NEW_ACTIVE.(threadId := thread)]);
    hide HasRunOn;
    var w2 := Next(w1, steps[1]);
    StartedRuns(w2.s, run, minted);
    hide Handle;
    var w3 := Next(w2, steps[2]);
    assert w3.s.threadStatus == v.s.threadStatus[thread := ThreadRunning];
    assert w3.s.runStatus == v.s.runStatus[run := Running];
    assert w3.s.threadStatus[thread := ToThreadStatus(status)] == v.s.threadStatus[thread := ToThreadStatus(status)];
  }

  lemma StartedRuns(s: State, run: Id, minted: Id)
    requires run in s.active && run in s.runStatus && s.active[run].threadId in s.threadStatus
    ensures Handle(s, run, RunStarted, minted).state ==
            s.(runStatus := s.runStatus[run := Running],
               threadStatus := s.threadStatus[s.active[run].threadId := ThreadRunning])
  {
  }

  /**
   A reply that is streaming when its run is checkpointed is still streaming after every later run of
   steps, unless a discard event names it: nothing else ever settles it.
   */
  lemma CheckpointedReplyStreamsOn(w: World, run: Id, id: Id, delta: string, minted: Id, later: seq<Step>)
    requires Inv(w) && run in w.s.active && w.s.active[run].streaming.None?
    requires Strings.Trim(id) != "" && id !in w.s.rows
    requires var n := After(w, [Handles(run, MessageDelta(id, delta), minted), Handles(run, RunCheckpointed, minted)]);
      Executable(n, later) && forall i :: 0 <= i < |later| ==> !Discards(later[i], id)
    ensures Executable(w, [Handles(run, MessageDelta(id, delta), minted), Handles(run, RunCheckpointed, minted)]
                       + later)
    ensures var n := After(w, [Handles(run, MessageDelta(id, delta), minted), Handles(run, RunCheckpointed, minted)]
                           + later);
      run !in n.s.active && id in n.s.rows && n.s.rows[id] == Row(Some(run), Reply, delta, Streaming, None, None)
  {
    var a, b := Handles(run, MessageDelta(id, delta), minted), Handles(run, RunCheckpointed, minted);
    CheckpointedReplyIs(w, run, id, delta, minted);
    hide Inv, Enabled, Next, Executable, After;
    UnguardedRun(w, [a, b]);
    ExecutableConcat(w, [a, b], later);
    Two(w, a, b);
    AfterConcat(w, [a, b], later);
    RowsOfEndedRunsAreFinal(Next(Next(w, a), b), later, run, id);
  }

  lemma CheckpointedReplyIs(w: World, run: Id, id: Id, delta: string, minted: Id)
    requires Inv(w) && run in w.s.active && w.s.active[run].streaming.None?
    requires Strings.Trim(id) != "" && id !in w.s.rows
    ensures var n := Next(Next(w, Handles(run, MessageDelta(id, delta), minted)),
                          Handles(run, RunCheckpointed, minted));
      && Inv(n) && run in n.issued && run !in n.s.active
      && id in n.s.rows && n.s.rows[id] == Row(Some(run), Reply, delta, Streaming, None, None)
  {
    var a, b := Handles(run, MessageDelta(id, delta), minted), Handles(run, RunCheckpointed, minted);
    StepKeeps(w, a);
    StepKeeps(Next(w, a), b);
    hide Handle, Quiet, Sound;
    DeltaOpensRow(w.s, run, id, delta, minted);
    CheckpointSettlesNothing(Next(w, a).s, run, minted);
  }

  lemma DeltaOpensRow(s: State, run: Id, id: Id, delta: string, minted: Id)
    requires run in s.active && s.active[run].streaming.None? && Strings.Trim(id) != "" && id !in s.rows
    ensures var t := Handle(s, run, MessageDelta(id, delta), minted).state;
      && run in t.active && t.active[run].streaming == Some(id)
      && id in t.rows && t.rows[id] == Row(Some(run), Reply, delta, Streaming, None, None)
  {
    var c := CompleteReasoning(s, run).state;
    CompleteReasoningIs(s, run);
    DeltaIsHandled(s, run, id, delta, minted);
    hide Handle, CompleteReasoning, RunSound, Sound, OnDelta, Strings.Trim;
    OnDeltaOpens(c, run, id, delta, minted);
  }

  lemma DeltaIsHandled(s: State, run: Id, id: Id, delta: string, minted: Id)
    requires run in s.active
    ensures Handle(s, run, MessageDelta(id, delta), minted).state
            == OnDelta(CompleteReasoning(s, run).state, run, id, delta, minted).state
  {
    var e := MessageDelta(id, delta);
    CompleteReasoningIs(s, run);
    AppliedAfterReasoning(s, run, e, minted);
    hide Handle, CompleteReasoning, OnDelta;
  }

  lemma AppliedAfterReasoning(s: State, run: Id, e: StreamEvent, minted: Id)
    requires CompletesReasoning(e) && CompleteReasoning(s, run).ok
    ensures Handle(s, run, e, minted).state == Apply(CompleteReasoning(s, run).state, run, e, minted).state
  {
    hide Apply, CompleteReasoning;
  }

  lemma CompleteReasoningIs(s: State, run: Id)
    requires run in s.active
    ensures var o := CompleteReasoning(s, run);
      o.ok && o.state.active == s.active[run := s.active[run].(reasoning := None)] && o.state.rows.Keys == s.rows.Keys
  {
  }

  lemma OnDeltaOpens(s: State, run: Id, id: Id, delta: string, minted: Id)
    requires run in s.active && s.active[run].streaming.None? && Strings.Trim(id) != "" && id !in s.rows
    ensures var t := OnDelta(s, run, id, delta, minted).state;
      && run in t.active && t.active[run].streaming == Some(id)
      && id in t.rows && t.rows[id] == Row(Some(run), Reply, delta, Streaming, None, None)
  {
    hide Strings.Trim;
    assert "" + delta == delta;
  }
}
