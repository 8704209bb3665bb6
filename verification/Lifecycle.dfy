/**
 The life of runs: every run of manager steps keeps at most one active run a thread and every
 streaming row of an active run within reach of its two pointers; what the end of a run settles, what
 a checkpoint leaves behind, and what events after the end can still change.
 */
module Lifecycle {
  import opened Prelude
  import opened RunManager
  import Strings

  /** One atomic step of the manager: a lock region, a table write, or a whole event handler. */
  datatype Step =
    | Registers(run: Id, thread: Id)              // the guard of a start or of a compact run
    | StoresMessage(id: Id, content: string)      // a user row or a marker row
    | StoresRun(run: Id, status: RunStatus)       // the run row
    | StoresThread(thread: Id, shown: ThreadStatus)
    | Handles(run: Id, event: StreamEvent, minted: Id)
    | MarksCancel(run: Id)
    | StoresCancelling(run: Id)
    | StoresOutcome(run: Id, status: RunStatus)   // a waiting run whose plan was approved or superseded
    | Finalizes(run: Id, thread: Id, status: RunStatus)   // the end of a compact run: status rows
    | Removes(run: Id)                            // a failed setup, or the end of a compact run

  /** The manager's state, and every run id handed out so far. */
  datatype World = World(s: State, issued: set<Id>)

  predicate Enabled(w: World, step: Step) {
    match step
    case Registers(run, _) => run !in w.issued
    case StoresMessage(id, _) => id !in w.s.rows
    case StoresRun(run, _) => run !in w.s.runStatus
    case _ => true
  }

  function Next(w: World, step: Step): World {
    var s := w.s;
    match step
    case Registers(run, thread) => World(Register(s, run, thread).state, w.issued + {run})
    case StoresMessage(id, content) =>
      w.(s := s.(rows := s.rows[id := Row(None, UserText, content, RowCompleted, None, None)]))
    case StoresRun(run, status) => w.(s := s.(runStatus := s.runStatus[run := status]))
    case StoresThread(thread, shown) => w.(s := SetThread(s, thread, shown))
    case Handles(run, event, minted) => w.(s := Handle(s, run, event, minted).state)
    case MarksCancel(run) => w.(s := RequestCancel(s, run))
    case StoresCancelling(run) => w.(s := SetRun(s, run, Cancelling))
    case StoresOutcome(run, status) => w.(s := SetRun(s, run, status))
    case Finalizes(run, thread, status) => w.(s := Finalize(s, run, thread, status))
    case Removes(run) => w.(s := RemoveRun(s, run))
  }

  predicate Executable(w: World, steps: seq<Step>)
    decreases |steps|
  {
    steps == [] || (Enabled(w, steps[0]) && Executable(Next(w, steps[0]), steps[1..]))
  }

  function After(w: World, steps: seq<Step>): World
    decreases |steps|
  {
    if steps == [] then w else After(Next(w, steps[0]), steps[1..])
  }

  // ---------------------------------------------------------------- the invariant

  ghost predicate OneRunPerThread(s: State) {
    forall r1, r2 :: r1 in s.active && r2 in s.active && s.active[r1].threadId == s.active[r2].threadId ==> r1 == r2
  }

  predicate Owned(s: State, run: Id, pointer: Option<Id>, kind: RowKind) {
    pointer.Some? ==>
      && pointer.value in s.rows
      && s.rows[pointer.value].runId == Some(run) && s.rows[pointer.value].kind == kind
  }

  /** The run's pointers are rows of its own, and no other row of its own is streaming. */
  ghost predicate RunSound(s: State, run: Id)
    requires run in s.active
  {
    var a := s.active[run];
    && Owned(s, run, a.streaming, Reply)
    && Owned(s, run, a.reasoning, Reasoning)
    && forall id :: id in s.rows && s.rows[id].runId == Some(run) && s.rows[id].status == Streaming ==>
         a.streaming == Some(id) || a.reasoning == Some(id)
  }

  ghost predicate Sound(s: State) {
    OneRunPerThread(s) && forall r :: r in s.active ==> RunSound(s, r)
  }

  ghost predicate Known(w: World) {
    && (forall r :: r in w.s.active ==> r in w.issued)
    && (forall id :: id in w.s.rows && w.s.rows[id].runId.Some? ==> w.s.rows[id].runId.value in w.issued)
  }

  ghost predicate Inv(w: World) {
    Sound(w.s) && Known(w)
  }

  /** No row of the run is still streaming. */
  ghost predicate Quiet(s: State, run: Id) {
    forall id :: id in s.rows && s.rows[id].runId == Some(run) ==> s.rows[id].status != Streaming
  }

  // ---------------------------------------------------------------- handler steps keep the state sound

  /** The step removes no run but may end its own, and moves no run to another thread. */
  ghost predicate RunsConfined(a: map<Id, ActiveRun>, b: map<Id, ActiveRun>, run: Id) {
    && (forall r :: r in b ==> r in a && b[r].threadId == a[r].threadId)
    && (forall r :: r in a && r != run ==> r in b && b[r] == a[r])
  }

  /** The step removes no row, sets none streaming again, and adds rows only for its own active run. */
  ghost predicate RowsConfined(a: map<Id, Row>, b: map<Id, Row>, run: Id, active: bool) {
    && (forall id :: id in a ==>
          && id in b && b[id].runId == a[id].runId && b[id].kind == a[id].kind
          && (b[id].status == Streaming ==> a[id].status == Streaming))
    && (forall id :: id in b && id !in a ==> b[id].runId.None? || (b[id].runId == Some(run) && active))
  }

  ghost predicate Confined(s: State, t: State, run: Id) {
    RunsConfined(s.active, t.active, run) && RowsConfined(s.rows, t.rows, run, run in s.active)
  }

  /** What each handler step is shown to do: it stays with its own run and leaves that run sound. */
  ghost predicate Keeps(s: State, t: State, run: Id) {
    (run in s.active ==> RunSound(s, run)) ==> Confined(s, t, run) && (run in t.active ==> RunSound(t, run))
  }

  lemma KeepsIsTransitive(s: State, t: State, u: State, run: Id)
    requires run in s.active ==> RunSound(s, run)
    requires Keeps(s, t, run) && Keeps(t, u, run)
    ensures Confined(s, u, run) && (run in u.active ==> RunSound(u, run))
  {
    hide RunSound;
  }

  lemma RunsKeepSound(s: State, t: State, run: Id)
    requires Sound(s) && Confined(s, t, run) && (run in t.active ==> RunSound(t, run))
    ensures Sound(t)
  {
    forall r | r in t.active ensures RunSound(t, r) {
      if r != run {
        assert RunSound(s, r);
      }
    }
  }

  lemma RowsKeep(s: State, rows: map<Id, Row>, run: Id)
    requires RowsConfined(s.rows, rows, run, false)
    ensures Keeps(s, s.(rows := rows), run)
  {
  }

  lemma CompleteReasoningKeeps(s: State, run: Id)
    ensures Keeps(s, CompleteReasoning(s, run).state, run)
  {
  }

  lemma StatusesKeep(s: State, t: State, run: Id)
    requires t.active == s.active && t.rows == s.rows
    ensures Keeps(s, t, run)
  {
  }

  lemma RemoveKeeps(s: State, run: Id)
    ensures Keeps(s, RemoveRun(s, run), run)
  {
  }

  lemma EnsureStreamingKeeps(s: State, run: Id, requested: Id, minted: Id)
    ensures Keeps(s, EnsureStreaming(s, run, requested, minted).state, run)
  {
    hide RequestedId;
  }

  lemma EnsureReasoningKeeps(s: State, run: Id, id: Id)
    ensures Keeps(s, EnsureReasoning(s, run, id).state, run)
  {
    var c := CompleteReasoning(s, run);
    CompleteReasoningKeeps(s, run);
    if EnsureReasoning(s, run, id).state != s && c.ok && id !in c.state.rows
      && (run in s.active ==> RunSound(s, run)) {
      var t := EnsureReasoning(s, run, id).state;
      assert Keeps(c.state, t, run);
      KeepsIsTransitive(s, c.state, t, run);
    }
  }

  lemma OnDeltaKeeps(s: State, run: Id, id: Id, delta: string, minted: Id)
    ensures Keeps(s, OnDelta(s, run, id, delta, minted).state, run)
  {
    var o := EnsureStreaming(s, run, id, minted);
    EnsureStreamingKeeps(s, run, id, minted);
    var t := OnDelta(s, run, id, delta, minted).state;
    assert Keeps(o.state, t, run) by { hide EnsureStreaming; RowsKeep(o.state, t.rows, run); }
    if run in s.active ==> RunSound(s, run) {
      KeepsIsTransitive(s, o.state, t, run);
    }
  }

  lemma OnCompletedKeeps(s: State, run: Id, id: Id, content: string, turnIndex: Option<nat>, minted: Id)
    ensures Keeps(s, OnCompleted(s, run, id, content, turnIndex, minted).state, run)
  {
    var o := EnsureStreaming(s, run, id, minted);
    EnsureStreamingKeeps(s, run, id, minted);
    hide EnsureStreaming, RequestedId, Keeps;
    if o.ok {
      CompletedKeeps(o.state, run, content, turnIndex);
    }
    KeepsChain(s, o.state, OnCompleted(s, run, id, content, turnIndex, minted).state, run);
  }

  lemma KeepsChain(s: State, t: State, u: State, run: Id)
    requires Keeps(s, t, run) && (Keeps(t, u, run) || t == u)
    ensures Keeps(s, u, run)
  {
    hide RunSound;
  }

  /** The reply the run points at is completed and let go. */
  lemma CompletedKeeps(s: State, run: Id, content: string, turnIndex: Option<nat>)
    requires run in s.active && s.active[run].streaming.Some?
    ensures var a := s.active[run];
      var row := a.streaming.value;
      var rows := if row in s.rows then s.rows[row := Finalized(s.rows[row], content, turnIndex)] else s.rows;
      Keeps(s, s.(rows := rows, active := s.active[run := a.(lastCompleted := a.streaming, streaming := None)]), run)
  {
    var row := s.active[run].streaming.value;
    if row in s.rows {
      var r := Finalized(s.rows[row], content, turnIndex);
      assert r.runId == s.rows[row].runId && r.kind == s.rows[row].kind && r.status == RowCompleted;
    }
    hide Finalized;
  }

  lemma OnDiscardedKeeps(s: State, run: Id, id: Id)
    ensures Keeps(s, OnDiscarded(s, run, id).state, run)
  {
    var t := OnDiscarded(s, run, id).state;
    assert RowsConfined(s.rows, t.rows, run, run in s.active);
    assert RunsConfined(s.active, t.active, run);
    hide RowsConfined, RunsConfined;
  }

  lemma OnReasoningKeeps(s: State, run: Id, id: Id, reasoning: string, signature: Option<string>,
                         turnIndex: Option<nat>, minted: Id)
    ensures Keeps(s, OnReasoning(s, run, id, reasoning, signature, turnIndex, minted).state, run)
  {
    var o := EnsureReasoning(s, run, RequestedId(id, minted));
    EnsureReasoningKeeps(s, run, RequestedId(id, minted));
    var t := OnReasoning(s, run, id, reasoning, signature, turnIndex, minted).state;
    hide EnsureReasoning, RequestedId;
    assert Keeps(o.state, t, run) by { RowsKeep(o.state, t.rows, run); }
    if run in s.active ==> RunSound(s, run) {
      KeepsIsTransitive(s, o.state, t, run);
    }
  }

  lemma FinishKeeps(s: State, run: Id, status: RunStatus)
    ensures Keeps(s, FinishRun(s, run, status).state, run)
  {
    if run in s.active {
      FinishedRowsConfined(s.rows, s.active[run], status, run);
      hide FinishedRows;
      var t := FinishRun(s, run, status).state;
      RowsKeep(s, t.rows, run);
      StatusesKeep(s.(rows := t.rows), t, run);
    }
  }

  lemma FinishedRowsConfined(rows: map<Id, Row>, a: ActiveRun, status: RunStatus, run: Id)
    ensures RowsConfined(rows, FinishedRows(rows, a, status), run, false)
  {
    hide DiscardsReasoning;
  }

  lemma ApplyKeeps(s: State, run: Id, e: StreamEvent, minted: Id)
    ensures Keeps(s, Apply(s, run, e, minted).state, run)
  {
    hide OnDelta, OnCompleted, OnDiscarded, OnReasoning, FinishRun, Keeps, FinalStatus, ToThreadStatus;
    match e {
      case MessageDelta(id, delta) => OnDeltaKeeps(s, run, id, delta, minted);
      case MessageCompleted(id, content, turnIndex) => OnCompletedKeeps(s, run, id, content, turnIndex, minted);
      case MessageDiscarded(id) => OnDiscardedKeeps(s, run, id);
      case ReasoningUpdated(id, reasoning, signature, turnIndex) =>
        OnReasoningKeeps(s, run, id, reasoning, signature, turnIndex, minted);
      case RunCompleted | RunLimitReached | RunFailed | RunCancelled | RunInterrupted =>
        FinishKeeps(s, run, FinalStatus(e, CancelRequested(s, run)));
      case UserMessageRecorded(id, content) => RowsKeep(s, Apply(s, run, e, minted).state.rows, run);
      case _ => StatusesKeep(s, Apply(s, run, e, minted).state, run);
    }
  }

  /** Handling any event of any run, with any ids in it, keeps the state sound and stays with its run. */
  lemma HandleSound(s: State, run: Id, e: StreamEvent, minted: Id)
    requires Sound(s)
    ensures var t := Handle(s, run, e, minted).state; Sound(t) && Confined(s, t, run)
  {
    hide Apply, CompleteReasoning, Terminal, CompletesReasoning, RunSound, Confined;
    CompleteReasoningKeeps(s, run);
    StatusesKeep(s, s, run);
    var c := if CompletesReasoning(e) then CompleteReasoning(s, run) else Outcome(s, true);
    var o := Apply(c.state, run, e, minted);
    ApplyKeeps(c.state, run, e, minted);
    KeepsIsTransitive(s, c.state, o.state, run);
    RemoveKeeps(o.state, run);
    KeepsIsTransitive(s, o.state, RemoveRun(o.state, run), run);
    RunsKeepSound(s, Handle(s, run, e, minted).state, run);
  }

  lemma HandlesKeeps(w: World, run: Id, event: StreamEvent, minted: Id)
    requires Inv(w)
    ensures Inv(w.(s := Handle(w.s, run, event, minted).state))
  {
    HandleSound(w.s, run, event, minted);
    hide Handle, Sound;
  }

  lemma RegistersKeeps(w: World, run: Id, thread: Id)
    requires Inv(w) && run !in w.issued
    ensures Inv(World(Register(w.s, run, thread).state, w.issued + {run}))
  {
  }

  lemma StatusesKeepInv(w: World, s: State)
    requires Inv(w) && s.active == w.s.active && s.rows == w.s.rows
    ensures Inv(w.(s := s))
  {
  }

  lemma StepKeeps(w: World, step: Step)
    requires Inv(w) && Enabled(w, step)
    ensures Inv(Next(w, step)) && w.issued <= Next(w, step).issued
  {
    match step {
      case Handles(run, event, minted) => hide Inv, Handle; HandlesKeeps(w, run, event, minted);
      case Registers(run, thread) => hide Inv, Register; RegistersKeeps(w, run, thread);
      case StoresRun(_, _) | StoresThread(_, _) | StoresCancelling(_) | StoresOutcome(_, _) | Finalizes(_, _, _) =>
        hide Inv;
        StatusesKeepInv(w, Next(w, step).s);
      case StoresMessage(id, content) => hide Inv; StoresMessageKeeps(w, id, content);
      case MarksCancel(run) => hide Inv; MarksCancelKeeps(w, run);
      case Removes(run) => hide Inv; RemovesKeeps(w, run);
    }
  }

  lemma StoresMessageKeeps(w: World, id: Id, content: string)
    requires Inv(w) && id !in w.s.rows
    ensures Inv(Next(w, StoresMessage(id, content)))
  {
  }

  lemma MarksCancelKeeps(w: World, run: Id)
    requires Inv(w)
    ensures Inv(Next(w, MarksCancel(run)))
  {
  }

  lemma RemovesKeeps(w: World, run: Id)
    requires Inv(w)
    ensures Inv(Next(w, Removes(run)))
  {
  }

  /** Over every run of the manager: one active run a thread, and no streaming row out of reach. */
  lemma {:induction false} RunKeeps(w: World, steps: seq<Step>)
    requires Inv(w) && Executable(w, steps)
    ensures Inv(After(w, steps)) && w.issued <= After(w, steps).issued
    decreases |steps|
  {
    if steps != [] {
      StepKeeps(w, steps[0]);
      RunKeeps(Next(w, steps[0]), steps[1..]);
    }
  }

  /** The same from a cold start: nothing active, whatever rows earlier runs have left. */
  lemma EveryReachableStateIsSound(w: World, steps: seq<Step>)
    requires w.s.active == map[] && Known(w) && Executable(w, steps)
    ensures Sound(After(w, steps).s)
  {
    RunKeeps(w, steps);
  }

  // ---------------------------------------------------------------- the end of a run

  function SettledStatus(e: StreamEvent): RowStatus {
    if e.RunFailed? then RowFailed else RowCompleted
  }

  /** Which status a finishing event gives the run's reasoning row. */
  function SettledReasoning(r: Row, e: StreamEvent): RowStatus {
    if !e.RunCompleted? && (Strings.Trim(r.content) == "" || r.signature.None?) then Discarded else SettledStatus(e)
  }

  /** A row after a finishing event of the run: only the two rows it points at change. */
  function Settled(a: ActiveRun, id: Id, r: Row, e: StreamEvent): Row {
    if a.streaming == Some(id) then r.(status := SettledStatus(e))
    else if a.reasoning == Some(id) then r.(status := SettledReasoning(r, e))
    else r
  }

  ghost predicate SettledRows(rows: map<Id, Row>, settled: map<Id, Row>, a: ActiveRun, e: StreamEvent) {
    settled.Keys == rows.Keys && forall id :: id in rows ==> settled[id] == Settled(a, id, rows[id], e)
  }

  lemma TwoRowsSettle(rows: map<Id, Row>, a: ActiveRun, e: StreamEvent, settled: map<Id, Row>)
    requires a.streaming.Some? && a.reasoning.Some? ==> a.streaming != a.reasoning
    requires a.reasoning.Some? ==> a.reasoning.value in rows
    requires var rows1 := if a.streaming.Some? then SetRowStatus(rows, a.streaming.value, SettledStatus(e)) else rows;
      settled == if a.reasoning.None? then rows1
        else SetRowStatus(rows1, a.reasoning.value, SettledReasoning(rows[a.reasoning.value], e))
    ensures SettledRows(rows, settled, a, e)
  {
    hide SettledReasoning, SettledStatus;
    forall id | id in rows ensures id in settled && settled[id] == Settled(a, id, rows[id], e) {
    }
    assert settled.Keys == rows.Keys;
  }

  lemma FinishedRowsAre(rows: map<Id, Row>, a: ActiveRun, e: StreamEvent, cancelRequested: bool)
    requires Finishing(e)
    requires a.streaming.Some? && a.reasoning.Some? ==> a.streaming != a.reasoning
    requires a.reasoning.Some? ==> a.reasoning.value in rows
    ensures var rows1 := if a.streaming.Some? then SetRowStatus(rows, a.streaming.value, SettledStatus(e)) else rows;
      FinishedRows(rows, a, FinalStatus(e, cancelRequested)) ==
      if a.reasoning.None? then rows1
      else SetRowStatus(rows1, a.reasoning.value, SettledReasoning(rows[a.reasoning.value], e))
  {
    hide SettledReasoning, DiscardsReasoning;
    var rows1 := if a.streaming.Some? then SetRowStatus(rows, a.streaming.value, SettledStatus(e)) else rows;
    if a.reasoning.Some? {
      var id := a.reasoning.value;
      assert id in rows1 && rows1[id] == rows[id];
      KeepsOrDiscards(rows1, id, e, cancelRequested);
    }
    hide SetRowStatus;
  }

  lemma FinishedRowsSettle(s: State, run: Id, e: StreamEvent, cancelRequested: bool)
    requires run in s.active && RunSound(s, run) && Finishing(e)
    ensures SettledRows(s.rows, FinishedRows(s.rows, s.active[run], FinalStatus(e, cancelRequested)), s.active[run], e)
  {
    var a := s.active[run];
    assert a.streaming.Some? && a.reasoning.Some? ==> a.streaming != a.reasoning;
    assert a.reasoning.Some? ==> a.reasoning.value in s.rows;
    hide RunSound, FinishedRows, SettledRows, SettledReasoning, SetRowStatus;
    FinishedRowsAre(s.rows, a, e, cancelRequested);
    TwoRowsSettle(s.rows, a, e, FinishedRows(s.rows, a, FinalStatus(e, cancelRequested)));
  }

  lemma KeepsOrDiscards(rows: map<Id, Row>, id: Id, e: StreamEvent, cancelRequested: bool)
    requires id in rows && Finishing(e)
    ensures SettledReasoning(rows[id], e) ==
            if DiscardsReasoning(rows, id, FinalStatus(e, cancelRequested)) then Discarded else SettledStatus(e)
  {
    hide Strings.Trim;
  }

  lemma FinishingIs(s: State, run: Id, e: StreamEvent, minted: Id)
    requires run in s.active && Finishing(e)
    ensures var f := FinishRun(s, run, FinalStatus(e, CancelRequested(s, run)));
      Handle(s, run, e, minted) == Outcome(RemoveRun(f.state, run), true)
  {
    hide FinishedRows, SetRun, SetThread;
  }

  lemma FinishRunParts(s: State, run: Id, final: RunStatus)
    requires run in s.active
    ensures var t := FinishRun(s, run, final).state;
      && t.active == s.active && t.rows == FinishedRows(s.rows, s.active[run], final)
      && (run in s.runStatus ==> t.runStatus == s.runStatus[run := final])
      && (s.active[run].threadId in s.threadStatus ==>
            t.threadStatus == s.threadStatus[s.active[run].threadId := ToThreadStatus(final)])
  {
    hide FinishedRows;
  }

  /**
   A finishing event always succeeds for an active run: the run leaves the map alone, its two rows are
   settled and none of its rows is streaming any more, and its status rows say how it ended.
   */
  lemma FinishingSettles(s: State, run: Id, e: StreamEvent, minted: Id)
    requires Sound(s) && run in s.active && Finishing(e)
    ensures var o := Handle(s, run, e, minted);
      && o.ok && o.state.active == s.active - {run}
      && Quiet(o.state, run) && SettledRows(s.rows, o.state.rows, s.active[run], e)
    ensures var o := Handle(s, run, e, minted);
      var final := FinalStatus(e, CancelRequested(s, run));
      && (run in s.runStatus ==> o.state.runStatus == s.runStatus[run := final])
      && (s.active[run].threadId in s.threadStatus ==>
            o.state.threadStatus == s.threadStatus[s.active[run].threadId := ToThreadStatus(final)])
  {
    assert RunSound(s, run);
    var final := FinalStatus(e, CancelRequested(s, run));
    FinishedRowsSettle(s, run, e, CancelRequested(s, run));
    hide Handle, FinishRun, FinishedRows, SettledRows, RunSound, Sound;
    FinishingIs(s, run, e, minted);
    FinishRunParts(s, run, final);
    SettledRowsAreQuiet(s, FinishRun(s, run, final).state, run, e);
  }

  lemma SettledRowsAreQuiet(s: State, t: State, run: Id, e: StreamEvent)
    requires run in s.active && RunSound(s, run) && SettledRows(s.rows, t.rows, s.active[run], e)
    ensures Quiet(t, run)
  {
    hide SettledReasoning;
    forall id | id in t.rows && t.rows[id].runId == Some(run) ensures t.rows[id].status != Streaming {
      assert t.rows[id] == Settled(s.active[run], id, s.rows[id], e);
      ReasoningSettles(s.rows[id], e);
    }
  }

  lemma ReasoningSettles(r: Row, e: StreamEvent)
    ensures SettledReasoning(r, e) != Streaming
  {
  }

  /**
   A checkpoint also ends the run, but it settles no row: the run leaves nothing streaming exactly
   when neither of its pointers stood at a streaming row.
   */
  lemma CheckpointSettlesNothing(s: State, run: Id, minted: Id)
    requires Sound(s) && run in s.active
    ensures var o := Handle(s, run, RunCheckpointed, minted);
      && o.ok && o.state.active == s.active - {run} && o.state.rows == s.rows
      && (Quiet(o.state, run) <==>
           && (s.active[run].streaming.Some? ==> s.rows[s.active[run].streaming.value].status != Streaming)
           && (s.active[run].reasoning.Some? ==> s.rows[s.active[run].reasoning.value].status != Streaming))
  {
    assert RunSound(s, run);
  }

  // ---------------------------------------------------------------- after the end

  /** The events that still write a status row for a run that is no longer active. */
  predicate Restarts(e: StreamEvent) {
    e.RunStarted? || e.RunRetrying? || e.RequestRetrying?
  }

  /** What any one event can do once its run is gone: only the three restarting ones write anything. */
  lemma LateEvent(s: State, run: Id, e: StreamEvent, minted: Id)
    requires run !in s.active
    ensures Handle(s, run, e, minted).state ==
      if e.RunStarted? then SetThread(SetRun(s, run, Running), "", ThreadRunning)
      else if Restarts(e) then SetRun(s, run, Running)
      else s
  {
  }

  /** A stream of events for one run, each with the id a fresh row would get. */
  function Feed(s: State, run: Id, events: seq<(StreamEvent, Id)>): State
    decreases |events|
  {
    if events == [] then s else Feed(Handle(s, run, events[0].0, events[0].1).state, run, events[1..])
  }

  /** After its finishing event a run absorbs every later event but the three that restart its status. */
  lemma FinishedRunsAbsorb(s: State, run: Id, e: StreamEvent, minted: Id, late: seq<(StreamEvent, Id)>)
    requires Sound(s) && run in s.active && Finishing(e)
    requires forall i :: 0 <= i < |late| ==> !Restarts(late[i].0)
    ensures var t := Handle(s, run, e, minted).state; Feed(t, run, late) == t
  {
    FinishingSettles(s, run, e, minted);
    Absorbs(Handle(s, run, e, minted).state, run, late);
  }

  lemma {:induction false} Absorbs(s: State, run: Id, late: seq<(StreamEvent, Id)>)
    requires run !in s.active
    requires forall i :: 0 <= i < |late| ==> !Restarts(late[i].0)
    ensures Feed(s, run, late) == s
    decreases |late|
  {
    if late != [] {
      LateEvent(s, run, late[0].0, late[0].1);
      Absorbs(s, run, late[1..]);
    }
  }

  /**
   The exact condition, where no thread goes by the empty id: one late event changes the state if and only if it
   restarts a status that is not already running.
   */
  lemma LateEventChangesIff(s: State, run: Id, e: StreamEvent, minted: Id)
    requires run !in s.active && "" !in s.threadStatus
    ensures Handle(s, run, e, minted).state != s <==> Restarts(e) && run in s.runStatus && s.runStatus[run] != Running
  {
    LateEvent(s, run, e, minted);
  }

  // ---------------------------------------------------------------- rows of ended runs, over every later run of steps

  /** The row is as it was. */
  ghost predicate Same(s: State, t: State, id: Id) {
    id in s.rows ==> id in t.rows && t.rows[id] == s.rows[id]
  }

  /** Neither pointer of the run stands at the row. */
  predicate Apart(s: State, run: Id, id: Id) {
    run in s.active ==> s.active[run].streaming != Some(id) && s.active[run].reasoning != Some(id)
  }

  lemma PointersUntouched(s: State, run: Id, requested: Id, minted: Id, id: Id)
    requires id in s.rows && Apart(s, run, id)
    ensures var o := CompleteReasoning(s, run); Same(s, o.state, id) && Apart(o.state, run, id)
    ensures var o := EnsureStreaming(s, run, requested, minted); Same(s, o.state, id) && Apart(o.state, run, id)
    ensures var o := EnsureReasoning(s, run, requested); Same(s, o.state, id) && (o.ok ==> requested != id)
  {
    hide RequestedId;
  }

  lemma FinishingLeavesOthers(rows: map<Id, Row>, a: ActiveRun, status: RunStatus, id: Id)
    requires id in rows && a.streaming != Some(id) && a.reasoning != Some(id)
    ensures var t := FinishedRows(rows, a, status); id in t && t[id] == rows[id]
  {
    hide DiscardsReasoning;
  }

  lemma ApplyLeavesOthers(s: State, run: Id, e: StreamEvent, minted: Id, id: Id)
    requires id in s.rows && Apart(s, run, id) && e != MessageDiscarded(id)
    ensures Same(s, Apply(s, run, e, minted).state, id)
  {
    hide EnsureStreaming, EnsureReasoning, RequestedId, Finalized, FinishedRows;
    match e {
      case MessageDelta(m, delta) => PointersUntouched(s, run, m, minted, id);
      case MessageCompleted(m, content, turnIndex) => PointersUntouched(s, run, m, minted, id);
      case ReasoningUpdated(m, reasoning, signature, turnIndex) =>
        PointersUntouched(s, run, RequestedId(m, minted), minted, id);
      case MessageDiscarded(m) =>
      case RunCompleted | RunLimitReached | RunFailed | RunCancelled | RunInterrupted =>
        if run in s.active {
          FinishingLeavesOthers(s.rows, s.active[run], FinalStatus(e, CancelRequested(s, run)), id);
        }
      case _ =>
    }
  }

  /** A handler step of another run changes a row only by discarding it by name. */
  lemma OtherRowsUntouched(s: State, run: Id, e: StreamEvent, minted: Id, id: Id)
    requires Sound(s) && id in s.rows && s.rows[id].runId != Some(run) && e != MessageDiscarded(id)
    ensures Same(s, Handle(s, run, e, minted).state, id)
  {
    assert Apart(s, run, id) by {
      if run in s.active {
        assert RunSound(s, run);
      }
    }
    PointersUntouched(s, run, "", minted, id);
    hide Apply, CompleteReasoning, Sound;
    var c := if CompletesReasoning(e) then CompleteReasoning(s, run) else Outcome(s, true);
    ApplyLeavesOthers(c.state, run, e, minted, id);
  }

  predicate Discards(step: Step, id: Id) {
    step.Handles? && step.event == MessageDiscarded(id)
  }

  lemma RowStepFrozen(w: World, step: Step, run: Id, id: Id)
    requires Inv(w) && Enabled(w, step) && run in w.issued && run !in w.s.active
    requires id in w.s.rows && w.s.rows[id].runId == Some(run) && !Discards(step, id)
    ensures var n := Next(w, step); run !in n.s.active && id in n.s.rows && n.s.rows[id] == w.s.rows[id]
  {
    match step {
      case Handles(r, event, minted) =>
        HandleSound(w.s, r, event, minted);
        if r == run {
          LateEvent(w.s, run, event, minted);
        } else {
          OtherRowsUntouched(w.s, r, event, minted, id);
        }
        hide Handle;
      case _ =>
    }
  }

  /**
   The rows an ended run leaves behind are final over every later run of steps: each stays exactly as
   it was, streaming or not, unless a discard event names it.
   */
  lemma {:induction false} RowsOfEndedRunsAreFinal(w: World, steps: seq<Step>, run: Id, id: Id)
    requires Inv(w) && Executable(w, steps) && run in w.issued && run !in w.s.active
    requires id in w.s.rows && w.s.rows[id].runId == Some(run)
    requires forall i :: 0 <= i < |steps| ==> !Discards(steps[i], id)
    ensures var n := After(w, steps); run !in n.s.active && id in n.s.rows && n.s.rows[id] == w.s.rows[id]
    decreases |steps|
  {
    if steps != [] {
      StepKeeps(w, steps[0]);
      RowStepFrozen(w, steps[0], run, id);
      hide Next, Inv, Discards;
      assert forall i :: 0 <= i < |steps[1..]| ==> steps[1..][i] == steps[i + 1];
      RowsOfEndedRunsAreFinal(Next(w, steps[0]), steps[1..], run, id);
    }
  }

  // ---------------------------------------------------------------- the status of an ended run

  /** The steps that write a status for the run, active or not. */
  predicate WritesStatus(step: Step, run: Id) {
    match step
    case Handles(r, e, _) => r == run && Restarts(e)
    case StoresCancelling(r) => r == run
    case StoresOutcome(r, _) => r == run
    case Finalizes(r, _, _) => r == run
    case _ => false
  }

  function Written(step: Step, run: Id): RunStatus
    requires WritesStatus(step, run)
  {
    match step
    case Handles(_, _, _) => Running
    case StoresCancelling(_) => Cancelling
    case StoresOutcome(_, status) => status
    case Finalizes(_, _, status) => status
  }

  lemma OtherStatusUntouched(s: State, run: Id, e: StreamEvent, minted: Id, other: Id)
    requires other != run && other in s.runStatus
    ensures var t := Handle(s, run, e, minted).state; other in t.runStatus && t.runStatus[other] == s.runStatus[other]
  {
    hide Apply, CompleteReasoning;
    CompletingKeepsStatuses(s, run);
    var c := if CompletesReasoning(e) then CompleteReasoning(s, run) else Outcome(s, true);
    ApplyKeepsStatus(c.state, run, e, minted, other);
  }

  lemma CompletingKeepsStatuses(s: State, run: Id)
    ensures CompleteReasoning(s, run).state.runStatus == s.runStatus
  {
  }

  lemma ApplyKeepsStatus(s: State, run: Id, e: StreamEvent, minted: Id, other: Id)
    requires other != run && other in s.runStatus
    ensures var t := Apply(s, run, e, minted).state; other in t.runStatus && t.runStatus[other] == s.runStatus[other]
  {
    if e.MessageDelta? || e.MessageCompleted? || e.ReasoningUpdated? {
      MessagesKeepStatuses(s, run, e, minted);
    } else {
      hide FinishedRows, SetRowStatus, OnDelta, OnCompleted, OnReasoning, FinalStatus;
    }
  }

  lemma MessagesKeepStatuses(s: State, run: Id, e: StreamEvent, minted: Id)
    requires e.MessageDelta? || e.MessageCompleted? || e.ReasoningUpdated?
    ensures Apply(s, run, e, minted).state.runStatus == s.runStatus
  {
    hide RequestedId, Finalized, SetRowStatus;
  }

  lemma StatusStep(w: World, step: Step, run: Id)
    requires Inv(w) && Enabled(w, step) && run in w.issued && run !in w.s.active && run in w.s.runStatus
    ensures var n := Next(w, step);
      && run !in n.s.active && run in n.s.runStatus
      && n.s.runStatus[run] == if WritesStatus(step, run) then Written(step, run) else w.s.runStatus[run]
  {
    match step {
      case Handles(r, event, minted) =>
        HandleSound(w.s, r, event, minted);
        if r == run {
          LateEvent(w.s, run, event, minted);
        } else {
          OtherStatusUntouched(w.s, r, event, minted, run);
        }
        hide Handle;
      case _ =>
    }
  }

  /**
   The exact condition: a step changes how an ended run is on record if and only if it writes it and writes
   something else.
   */
  lemma EndedStatusChangesIff(w: World, step: Step, run: Id)
    requires Inv(w) && Enabled(w, step) && run in w.issued && run !in w.s.active && run in w.s.runStatus
    ensures var n := Next(w, step);
      && run in n.s.runStatus
      && (n.s.runStatus[run] != w.s.runStatus[run]
          <==> WritesStatus(step, run) && Written(step, run) != w.s.runStatus[run])
  {
    StatusStep(w, step, run);
    hide Next, Inv, WritesStatus;
  }

  /** The status the steps last write for the run, or the one it had. */
  function LastWritten(steps: seq<Step>, run: Id, status: RunStatus): RunStatus {
    if steps == [] then status
    else LastWritten(steps[1..], run, if WritesStatus(steps[0], run) then Written(steps[0], run) else status)
  }

  /**
   The complete law over every later run of steps: an ended run is on record as the last step that writes its
   status says.
   */
  lemma {:induction false} EndedStatusIs(w: World, steps: seq<Step>, run: Id)
    requires Inv(w) && Executable(w, steps) && run in w.issued && run !in w.s.active && run in w.s.runStatus
    ensures var n := After(w, steps);
      run in n.s.runStatus && n.s.runStatus[run] == LastWritten(steps, run, w.s.runStatus[run])
    decreases |steps|
  {
    if steps != [] {
      StepKeeps(w, steps[0]);
      StatusStep(w, steps[0], run);
      hide Next, Inv, WritesStatus;
      EndedStatusIs(Next(w, steps[0]), steps[1..], run);
    }
  }

  /** In particular it stays when no step writes it. */
  lemma {:induction false} UnwrittenStays(steps: seq<Step>, run: Id, status: RunStatus)
    requires forall i :: 0 <= i < |steps| ==> !WritesStatus(steps[i], run)
    ensures LastWritten(steps, run, status) == status
  {
    if steps != [] {
      UnwrittenStays(steps[1..], run, status);
    }
  }

  // ---------------------------------------------------------------- the status shown for a thread

  /** The thread status an event of an active run writes, if it writes one. */
  function ShownByEvent(e: StreamEvent, cancelRequested: bool): Option<ThreadStatus> {
    if Finishing(e) then Some(ToThreadStatus(FinalStatus(e, cancelRequested)))
    else match e
      case RunStarted => Some(ThreadRunning)
      case ApprovalRequired => Some(ThreadWaitingApproval)
      case ClarifyRequired => Some(ThreadNeedsReply)
      case RequestResolved => Some(ThreadRunning)
      case RunCheckpointed => Some(ThreadWaitingApproval)
      case _ => None
  }

  /** The status the step writes for the thread, if it writes one. */
  function ShownBy(s: State, step: Step, thread: Id): Option<ThreadStatus> {
    match step
    case StoresThread(t, shown) => if t == thread then Some(shown) else None
    case Finalizes(_, t, status) => if t == thread then Some(ToThreadStatus(status)) else None
    case Handles(r, e, _) =>
      if ThreadOf(s, r) == thread && (r in s.active || e.RunStarted?) then ShownByEvent(e, CancelRequested(s, r))
      else None
    case _ => None
  }

  lemma HandleShows(s: State, run: Id, e: StreamEvent, minted: Id, thread: Id)
    requires thread in s.threadStatus
    ensures var t := Handle(s, run, e, minted).state;
      var shown := ShownBy(s, Handles(run, e, minted), thread);
      thread in t.threadStatus && t.threadStatus[thread] == if shown.Some? then shown.value else s.threadStatus[thread]
  {
    if run in s.active {
      hide ShownByEvent, Handle;
      var c := if CompletesReasoning(e) then CompleteReasoning(s, run) else Outcome(s, true);
      CompletingKeepsThreads(s, run);
      AppliedToThreads(s, run, e, minted);
      hide Apply, CompleteReasoning, CompletesReasoning;
      ApplyShows(c.state, run, e, minted, thread);
    } else {
      hide Handle;
      LateEvent(s, run, e, minted);
    }
  }

  lemma AppliedToThreads(s: State, run: Id, e: StreamEvent, minted: Id)
    requires run in s.active
    ensures var c := if CompletesReasoning(e) then CompleteReasoning(s, run) else Outcome(s, true);
      Handle(s, run, e, minted).state.threadStatus == Apply(c.state, run, e, minted).state.threadStatus
  {
    CompletingKeepsThreads(s, run);
    hide Apply, CompleteReasoning, CompletesReasoning, Terminal;
  }

  lemma CompletingKeepsThreads(s: State, run: Id)
    requires run in s.active
    ensures var o := CompleteReasoning(s, run);
      && o.ok && o.state.threadStatus == s.threadStatus && run in o.state.active
      && o.state.active[run].threadId == s.active[run].threadId
         && o.state.active[run].cancelRequested == s.active[run].cancelRequested
  {
  }

  lemma ApplyShows(s: State, run: Id, e: StreamEvent, minted: Id, thread: Id)
    requires thread in s.threadStatus && run in s.active
    ensures var t := Apply(s, run, e, minted).state;
      var shown := if s.active[run].threadId == thread then ShownByEvent(e, s.active[run].cancelRequested) else None;
      thread in t.threadStatus && t.threadStatus[thread] == if shown.Some? then shown.value else s.threadStatus[thread]
  {
    hide FinalStatus, ToThreadStatus, Apply, FinishRun, SetThread;
    if Finishing(e) {
      FinishShows(s, run, e, minted, thread);
    } else if e.MessageDelta? || e.MessageCompleted? || e.ReasoningUpdated? {
      MessagesKeepThreads(s, run, e, minted);
    } else {
      OtherShows(s, run, e, minted, thread);
    }
  }

  lemma FinishShows(s: State, run: Id, e: StreamEvent, minted: Id, thread: Id)
    requires thread in s.threadStatus && run in s.active && Finishing(e)
    ensures var t := Apply(s, run, e, minted).state;
      var final := ToThreadStatus(FinalStatus(e, s.active[run].cancelRequested));
      thread in t.threadStatus && t.threadStatus[thread] ==
        if s.active[run].threadId == thread then final else s.threadStatus[thread]
  {
    hide FinishedRows, FinalStatus, ToThreadStatus;
  }

  lemma OtherShows(s: State, run: Id, e: StreamEvent, minted: Id, thread: Id)
    requires thread in s.threadStatus && run in s.active
    requires !Finishing(e) && !e.MessageDelta? && !e.MessageCompleted? && !e.ReasoningUpdated?
    ensures var t := Apply(s, run, e, minted).state;
      var shown := if s.active[run].threadId == thread then ShownByEvent(e, s.active[run].cancelRequested) else None;
      thread in t.threadStatus && t.threadStatus[thread] == if shown.Some? then shown.value else s.threadStatus[thread]
  {
    hide FinalStatus, ToThreadStatus, OnDelta, OnCompleted, OnReasoning, FinishRun, SetRowStatus;
  }

  lemma MessagesKeepThreads(s: State, run: Id, e: StreamEvent, minted: Id)
    requires e.MessageDelta? || e.MessageCompleted? || e.ReasoningUpdated?
    ensures Apply(s, run, e, minted).state.threadStatus == s.threadStatus
  {
    hide RequestedId, Finalized, SetRowStatus;
  }

  /** The complete law of one step: the thread is shown as the step says, or as before. */
  lemma ThreadStatusStep(w: World, step: Step, thread: Id)
    requires thread in w.s.threadStatus
    ensures var n := Next(w, step);
      var shown := ShownBy(w.s, step, thread);
      && thread in n.s.threadStatus
      && n.s.threadStatus[thread] == if shown.Some? then shown.value else w.s.threadStatus[thread]
  {
    match step {
      case Handles(run, e, minted) =>
        HandleShows(w.s, run, e, minted, thread);
        hide Handle, ShownBy;
      case _ =>
    }
  }

  predicate OfRun(step: Step, run: Id) {
    (step.Handles? || step.Finalizes?) && step.run == run
  }

  /**
   The exact condition, for a thread with an active run: a step that is not of that run changes the
   status shown for it if and only if it is the end of another, compact, run of the thread or a direct
   write (the setup of a compact run, or a clear) and shows something else.
   */
  lemma ForeignStatusChangesIff(w: World, step: Step, run: Id, thread: Id)
    requires Inv(w) && Enabled(w, step) && run in w.s.active && w.s.active[run].threadId == thread && thread != ""
    requires thread in w.s.threadStatus && !OfRun(step, run)
    ensures var n := Next(w, step);
      && thread in n.s.threadStatus
      && (n.s.threadStatus[thread] != w.s.threadStatus[thread] <==>
           || (step.Finalizes? && step.run != run && step.thread == thread
               && ToThreadStatus(step.status) != w.s.threadStatus[thread])
           || (step.StoresThread? && step.thread == thread && step.shown != w.s.threadStatus[thread]))
  {
    ThreadStatusStep(w, step, thread);
    if step.Handles? && step.run in w.s.active {
      assert w.s.active[step.run].threadId != thread;
    }
    hide Next, Sound, Known, ToThreadStatus, ShownByEvent;
  }
}
