/**
 What is on record after each event, value by value: the status of the run, the status shown for its
 thread, whether the run is over, whether its reasoning block is, and how a run ends after a cancel.
 */
module RunOutcomes {
  import opened Prelude
  import Strings
  import opened RunManager
  import opened Lifecycle

  // ---------------------------------------------------------------- the tables

  /** The status an event puts on record for its active run; None where it leaves the record alone. */
  function RecordedBy(e: StreamEvent, cancelRequested: bool): Option<RunStatus> {
    match e
    case RunStarted | RunRetrying | RequestRetrying | RequestResolved => Some(Running)
    case WorkRequested => Some(WaitingToolResult)
    case ApprovalRequired | RunCheckpointed => Some(WaitingApproval)
    case ClarifyRequired => Some(NeedsReply)
    case WorkFinished => if cancelRequested then None else Some(Running)
    case RunCompleted => Some(Completed)
    case RunLimitReached => Some(LimitReached)
    case RunFailed => Some(Failed)
    case RunCancelled => Some(Cancelled)
    case RunInterrupted => if cancelRequested then Some(Cancelled) else Some(Interrupted)
    case MessageDelta(_, _) | MessageCompleted(_, _, _) | MessageDiscarded(_) | ReasoningUpdated(_, _, _, _) => None
    case UserMessageRecorded(_, _) | UsageUpdated | ContextCompressing | Other => None
  }

  /** The status an event shows for the thread of its active run. */
  function ThreadShownBy(e: StreamEvent, cancelRequested: bool): Option<ThreadStatus> {
    match e
    case RunStarted | RequestResolved => Some(ThreadRunning)
    case ApprovalRequired | RunCheckpointed => Some(ThreadWaitingApproval)
    case ClarifyRequired | RunLimitReached => Some(ThreadNeedsReply)
    case RunCompleted | RunCancelled => Some(ThreadIdle)
    case RunFailed => Some(ThreadFailed)
    case RunInterrupted => if cancelRequested then Some(ThreadIdle) else Some(ThreadInterrupted)
    case RunRetrying | RequestRetrying | WorkRequested | WorkFinished => None
    case MessageDelta(_, _) | MessageCompleted(_, _, _) | MessageDiscarded(_) | ReasoningUpdated(_, _, _, _) => None
    case UserMessageRecorded(_, _) | UsageUpdated | ContextCompressing | Other => None
  }

  /** The events after which the run is no longer active. */
  predicate Ends(e: StreamEvent) {
    match e
    case RunCheckpointed | RunCompleted | RunLimitReached | RunFailed | RunCancelled | RunInterrupted => true
    case _ => false
  }

  /** The events that complete an open reasoning block without being about one. */
  predicate ClosesReasoning(e: StreamEvent) {
    match e
    case MessageDelta(_, _) | MessageCompleted(_, _, _) | MessageDiscarded(_) => true
    case WorkRequested | WorkFinished | ApprovalRequired | ClarifyRequired | RequestResolved | Other => true
    case _ => false
  }

  function SetTo<V>(m: map<Id, V>, k: Id, v: Option<V>): map<Id, V> {
    if v.Some? && k in m then m[k := v.value] else m
  }

  // ---------------------------------------------------------------- one event

  lemma ApplyRecords(s: State, run: Id, e: StreamEvent, minted: Id)
    requires run in s.active && !e.MessageDelta? && !e.MessageCompleted? && !e.ReasoningUpdated?
    ensures var a, o := s.active[run], Apply(s, run, e, minted);
      && o.state.runStatus == SetTo(s.runStatus, run, RecordedBy(e, a.cancelRequested))
      && o.state.threadStatus == SetTo(s.threadStatus, a.threadId, ThreadShownBy(e, a.cancelRequested))
  {
    if Finishing(e) {
      FinishRecords(s, run, e, minted);
    } else {
      hide OnDelta, OnCompleted, OnReasoning, SetRowStatus, FinishRun, FinalStatus, ToThreadStatus;
    }
  }

  lemma FinishRecords(s: State, run: Id, e: StreamEvent, minted: Id)
    requires run in s.active && Finishing(e)
    ensures var a, o := s.active[run], Apply(s, run, e, minted);
      && o.state.runStatus == SetTo(s.runStatus, run, RecordedBy(e, a.cancelRequested))
      && o.state.threadStatus == SetTo(s.threadStatus, a.threadId, ThreadShownBy(e, a.cancelRequested))
  {
    var cancelRequested := s.active[run].cancelRequested;
    FinalValues(e, cancelRequested);
    hide FinishedRows, FinalStatus, ToThreadStatus, RecordedBy, ThreadShownBy;
  }

  lemma FinalValues(e: StreamEvent, cancelRequested: bool)
    requires Finishing(e)
    ensures RecordedBy(e, cancelRequested) == Some(FinalStatus(e, cancelRequested))
    ensures ThreadShownBy(e, cancelRequested) == Some(ToThreadStatus(FinalStatus(e, cancelRequested)))
  {
  }

  lemma MessagesRecordNothing(s: State, run: Id, e: StreamEvent, minted: Id)
    requires e.MessageDelta? || e.MessageCompleted? || e.ReasoningUpdated?
    ensures var t := Apply(s, run, e, minted).state; t.runStatus == s.runStatus && t.threadStatus == s.threadStatus
  {
    MessagesKeepThreads(s, run, e, minted);
    MessagesKeepStatuses(s, run, e, minted);
    hide Apply;
  }

  lemma CompletingRecordsNothing(s: State, run: Id)
    requires run in s.active
    ensures var o := CompleteReasoning(s, run);
      && o.ok && o.state.runStatus == s.runStatus && o.state.threadStatus == s.threadStatus
      && o.state.active == s.active[run := s.active[run].(reasoning := None)]
  {
  }

  lemma AppliedAt(s: State, run: Id, e: StreamEvent, minted: Id)
    requires run in s.active
    ensures var c := if CompletesReasoning(e) then CompleteReasoning(s, run).state else s;
      var o, t := Apply(c, run, e, minted), Handle(s, run, e, minted).state;
      && t.runStatus == o.state.runStatus && t.threadStatus == o.state.threadStatus && t.rows == o.state.rows
      && t.active == if o.ok && Terminal(e) then o.state.active - {run} else o.state.active
  {
    CompletingRecordsNothing(s, run);
    hide Apply, CompleteReasoning, Terminal, CompletesReasoning;
  }

  /**
   Every event of an active run puts exactly the tabled status on record for the run and shows exactly the
   tabled status for its thread.
   */
  lemma EventRecords(s: State, run: Id, e: StreamEvent, minted: Id)
    requires run in s.active
    ensures var a, t := s.active[run], Handle(s, run, e, minted).state;
      && t.runStatus == SetTo(s.runStatus, run, RecordedBy(e, a.cancelRequested))
      && t.threadStatus == SetTo(s.threadStatus, a.threadId, ThreadShownBy(e, a.cancelRequested))
  {
    hide Handle, Apply, CompleteReasoning, CompletesReasoning, RecordedBy, ThreadShownBy, Terminal;
    AppliedAt(s, run, e, minted);
    CompletingRecordsNothing(s, run);
    var c := if CompletesReasoning(e) then CompleteReasoning(s, run).state else s;
    if e.MessageDelta? || e.MessageCompleted? || e.ReasoningUpdated? {
      MessagesRecordNothing(c, run, e, minted);
      NothingTabled(e, s.active[run].cancelRequested);
    } else {
      ApplyRecords(c, run, e, minted);
    }
  }

  lemma NothingTabled(e: StreamEvent, cancelRequested: bool)
    requires e.MessageDelta? || e.MessageCompleted? || e.ReasoningUpdated?
    ensures RecordedBy(e, cancelRequested) == None && ThreadShownBy(e, cancelRequested) == None
  {
  }

  lemma EndsIff(e: StreamEvent)
    ensures Terminal(e) <==> Ends(e)
    ensures CompletesReasoning(e) <==> ClosesReasoning(e)
  {
  }

  /**
   The run keeps its thread and its cancel mark as long as it is active; it is over after exactly the tabled
   events.
   */
  lemma EventEnds(s: State, run: Id, e: StreamEvent, minted: Id)
    requires run in s.active
    ensures var t := Handle(s, run, e, minted).state;
      && (run in t.active <==> !Ends(e))
      && (run in t.active ==> t.active[run].threadId == s.active[run].threadId
                              && t.active[run].cancelRequested == s.active[run].cancelRequested)
      && (run in t.active && !e.ReasoningUpdated? ==>
            t.active[run].reasoning == if ClosesReasoning(e) then None else s.active[run].reasoning)
  {
    hide Handle, Apply, CompleteReasoning, CompletesReasoning, Terminal, Ends, ClosesReasoning;
    EndsIff(e);
    AppliedAt(s, run, e, minted);
    CompletingRecordsNothing(s, run);
    ApplyMarks(if CompletesReasoning(e) then CompleteReasoning(s, run).state else s, run, e, minted);
  }

  lemma ApplyMarks(s: State, run: Id, e: StreamEvent, minted: Id)
    requires run in s.active
    ensures var o := Apply(s, run, e, minted);
      && run in o.state.active && (Terminal(e) ==> o.ok)
      && o.state.active[run].threadId == s.active[run].threadId
      && o.state.active[run].cancelRequested == s.active[run].cancelRequested
      && (!e.ReasoningUpdated? ==> o.state.active[run].reasoning == s.active[run].reasoning)
  {
    if e.MessageDelta? || e.MessageCompleted? || e.ReasoningUpdated? {
      MessagesKeepMark(s, run, e, minted);
    } else {
      hide OnDelta, OnCompleted, OnReasoning, SetRowStatus, FinishedRows, FinalStatus, ToThreadStatus;
    }
  }

  lemma MessagesKeepMark(s: State, run: Id, e: StreamEvent, minted: Id)
    requires run in s.active && (e.MessageDelta? || e.MessageCompleted? || e.ReasoningUpdated?)
    ensures var t := Apply(s, run, e, minted).state;
      && run in t.active
      && t.active[run].threadId == s.active[run].threadId
      && t.active[run].cancelRequested == s.active[run].cancelRequested
      && (!e.ReasoningUpdated? ==> t.active[run].reasoning == s.active[run].reasoning)
  {
    hide RequestedId, Finalized, SetRowStatus;
  }

  /** No event of another run touches the run's place in the map. */
  lemma OtherEventsKeepRun(s: State, run: Id, e: StreamEvent, minted: Id, other: Id)
    requires Sound(s) && other in s.active && other != run
    ensures var t := Handle(s, run, e, minted).state; other in t.active && t.active[other] == s.active[other]
  {
    HandleSound(s, run, e, minted);
    hide Handle, Sound;
  }

  /** The end of a compact run: the status it ended with, and what is shown for it. */
  lemma FinalizeRecords(s: State, run: Id, thread: Id, status: RunStatus)
    ensures var t := Finalize(s, run, thread, status);
      var shown := match status
        case Created | Running | WaitingToolResult | Cancelling => ThreadRunning
        case WaitingApproval => ThreadWaitingApproval
        case NeedsReply | LimitReached => ThreadNeedsReply
        case Interrupted => ThreadInterrupted
        case Failed => ThreadFailed
        case Completed | Cancelled => ThreadIdle;
      && t.runStatus == SetTo(s.runStatus, run, Some(status))
      && t.threadStatus == SetTo(s.threadStatus, thread, Some(shown))
      && t.active == s.active && t.rows == s.rows
  {
  }

  /** For an active run an event fails exactly when it needs a row under an id that is taken. */
  lemma FailsIff(s: State, run: Id, e: StreamEvent, minted: Id)
    requires run in s.active
    ensures var a, taken := s.active[run], (id: Id) => (if Strings.Trim(id) == "" then minted else id) in s.rows;
      !Handle(s, run, e, minted).ok <==>
        match e
        case MessageDelta(id, _) => a.streaming.None? && taken(id)
        case MessageCompleted(id, _, _) => a.streaming.None? && taken(id)
        case ReasoningUpdated(id, _, _, _) => a.reasoning != Some(if Strings.Trim(id) == "" then minted else id)
          && taken(id)
        case UserMessageRecorded(id, _) => a.threadId != "" && id in s.rows
        case _ => false
  {
    hide Strings.Trim, Handle, Apply, CompleteReasoning, CompletesReasoning, Terminal;
    var c := if CompletesReasoning(e) then CompleteReasoning(s, run) else Outcome(s, true);
    CompletingKeepsRows(s, run);
    HandleOk(s, run, e, minted);
    if e.ReasoningUpdated? || e.UserMessageRecorded? {
      ClosesBefore(e);
    }
    ApplyFailsIff(c.state, run, e, minted);
  }

  lemma ClosesBefore(e: StreamEvent)
    requires e.ReasoningUpdated? || e.UserMessageRecorded?
    ensures !CompletesReasoning(e)
  {
  }

  lemma HandleOk(s: State, run: Id, e: StreamEvent, minted: Id)
    requires run in s.active
    ensures var c := if CompletesReasoning(e) then CompleteReasoning(s, run) else Outcome(s, true);
      Handle(s, run, e, minted).ok == Apply(c.state, run, e, minted).ok
  {
    CompletingKeepsRows(s, run);
    hide Apply, CompleteReasoning, CompletesReasoning, Terminal;
  }

  lemma CompletingKeepsRows(s: State, run: Id)
    requires run in s.active
    ensures var o := CompleteReasoning(s, run);
      o.ok && o.state.rows.Keys == s.rows.Keys && o.state.active == s.active[run := s.active[run].(reasoning := None)]
  {
  }

  lemma ApplyFailsIff(s: State, run: Id, e: StreamEvent, minted: Id)
    requires run in s.active
    ensures var a, taken := s.active[run], (id: Id) => (if Strings.Trim(id) == "" then minted else id) in s.rows;
      !Apply(s, run, e, minted).ok <==>
        match e
        case MessageDelta(id, _) => a.streaming.None? && taken(id)
        case MessageCompleted(id, _, _) => a.streaming.None? && taken(id)
        case ReasoningUpdated(id, _, _, _) => a.reasoning != Some(if Strings.Trim(id) == "" then minted else id)
          && taken(id)
        case UserMessageRecorded(id, _) => a.threadId != "" && id in s.rows
        case _ => false
  {
    hide Strings.Trim, Finalized, FinishedRows, SetRowStatus, SetRun, SetThread;
    CompletingKeepsRows(s, run);
    hide CompleteReasoning;
  }

  /**
   The guard of a start: an active run of the thread is an error and changes nothing; otherwise the run is
   there, with nothing pointed at and no cancel.
   */
  lemma GuardIs(s: State, run: Id, thread: Id)
    ensures var o, taken := Register(s, run, thread), exists r :: r in s.active && s.active[r].threadId == thread;
      o == if taken then Outcome(s, false)
           else Outcome(s.(active := s.active[run := ActiveRun(thread, None, None, None, false)]), true)
  {
  }

  /** For a run that is over an event that ends runs is no error and changes nothing. */
  lemma SecondEndIs(s: State, run: Id, e: StreamEvent, minted: Id)
    requires run !in s.active && Ends(e)
    ensures Handle(s, run, e, minted) == Outcome(s, true)
  {
    hide Apply, CompleteReasoning;
  }

  // ---------------------------------------------------------------- rows

  /** A completed message: a non-empty text replaces what was streamed, and a turn replaces all metadata. */
  lemma CompletedRowIs(s: State, run: Id, id: Id, content: string, turn: Option<nat>, minted: Id)
    requires run in s.active && s.active[run].streaming.Some? && s.active[run].streaming.value in s.rows
    ensures var row := s.active[run].streaming.value;
      var r, t := s.rows[row], OnCompleted(s, run, id, content, turn, minted).state;
      t.rows == s.rows[row := Row(r.runId, r.kind, if content == "" then r.content else content, RowCompleted,
                                  if turn.Some? then None else r.signature, if turn.Some? then turn else r.turnIndex)]
  {
  }

  /** A reasoning update: the text replaces the old one, and a signature or a turn replaces all metadata. */
  lemma ReasoningRowIs(s: State, run: Id, id: Id, text: string, signature: Option<string>, turn: Option<nat>,
                       minted: Id)
    requires run in s.active && s.active[run].reasoning == Some(id) && id in s.rows && RequestedId(id, minted) == id
    ensures var r, t := s.rows[id], OnReasoning(s, run, id, text, signature, turn, minted).state;
      var replaced := signature.Some? || turn.Some?;
      t == s.(rows := s.rows[id := Row(r.runId, r.kind, text, r.status, if replaced then signature else r.signature,
                                       if replaced then turn else r.turnIndex)])
  {
    hide RequestedId;
  }

  /** A user message the agent took from a queue becomes a completed row of no run, unless its id is taken. */
  lemma UserRowIs(s: State, run: Id, id: Id, content: string)
    requires run in s.active && s.active[run].threadId != ""
    ensures var o := OnUserMessage(s, run, id, content);
      if id in s.rows then !o.ok && o.state == s
      else o.ok && o.state == s.(rows := s.rows[id := Row(None, UserText, content, RowCompleted, None, None)])
  {
  }

  // ---------------------------------------------------------------- cancels, over every run of steps

  predicate Marks(step: Step, run: Id) {
    step == MarksCancel(run)
  }

  /** One of the steps is a cancel that marks the run. */
  predicate AnyMarks(steps: seq<Step>, run: Id) {
    exists i :: 0 <= i < |steps| && Marks(steps[i], run)
  }

  lemma StepMarks(w: World, step: Step, run: Id)
    requires Inv(w) && Enabled(w, step) && run in w.s.active
    ensures var n := Next(w, step);
      run in n.s.active ==>
        && n.s.active[run].threadId == w.s.active[run].threadId
        && (n.s.active[run].cancelRequested <==> w.s.active[run].cancelRequested || Marks(step, run))
  {
    match step {
      case Handles(r, e, minted) =>
        hide Handle, Ends, ClosesReasoning;
        if r == run {
          EventEnds(w.s, run, e, minted);
        } else {
          OtherEventsKeepRun(w.s, r, e, minted, run);
        }
      case _ => hide Handle, Sound;
    }
  }

  lemma GoneStaysGone(w: World, step: Step, run: Id)
    requires Inv(w) && Enabled(w, step) && run in w.issued && run !in w.s.active
    ensures run !in Next(w, step).s.active && run in Next(w, step).issued
  {
    StepKeeps(w, step);
    match step {
      case Handles(r, e, minted) =>
        HandleSound(w.s, r, e, minted);
        hide Handle, Sound;
      case _ => hide Handle, Sound;
    }
  }

  lemma {:induction false} GoneForGood(w: World, steps: seq<Step>, run: Id)
    requires Inv(w) && Executable(w, steps) && run in w.issued && run !in w.s.active
    ensures run !in After(w, steps).s.active
    decreases |steps|
  {
    hide Next, Inv, Enabled;
    if steps != [] {
      StepKeeps(w, steps[0]);
      GoneStaysGone(w, steps[0], run);
      GoneForGood(Next(w, steps[0]), steps[1..], run);
    }
  }

  /** A run that is still active is marked if and only if it was, or a cancel has marked it since. */
  lemma {:induction false} MarkedIff(w: World, steps: seq<Step>, run: Id)
    requires Inv(w) && Executable(w, steps) && run in w.s.active && run in After(w, steps).s.active
    ensures var a := After(w, steps).s.active[run];
      && a.threadId == w.s.active[run].threadId
      && (a.cancelRequested <==> w.s.active[run].cancelRequested || AnyMarks(steps, run))
    decreases |steps|
  {
    if steps != [] {
      var n, rest := Next(w, steps[0]), steps[1..];
      assert run in w.issued;
      StepKeeps(w, steps[0]);
      StepMarks(w, steps[0], run);
      hide Next, Inv, Enabled, Marks;
      if run !in n.s.active {
        GoneForGood(n, rest, run);
      } else {
        MarkedIff(n, rest, run);
        assert forall i :: 1 <= i < |steps| ==> steps[i] == rest[i - 1];
        assert forall i :: 0 <= i < |rest| ==> rest[i] == steps[i + 1];
      }
    }
  }

  /**
   A run that is interrupted is on record as cancelled, and its thread is idle, if a cancel has marked it
   since it was registered; otherwise both say interrupted.
   */
  lemma InterruptedIsCancelledIff(w: World, steps: seq<Step>, run: Id, minted: Id)
    requires Inv(w) && Executable(w, steps) && run in w.s.active && !w.s.active[run].cancelRequested
    requires var s := After(w, steps).s;
      run in s.active && run in s.runStatus && w.s.active[run].threadId in s.threadStatus
    ensures var s := After(w, steps).s;
      var t, cancelled := Handle(s, run, RunInterrupted, minted).state, AnyMarks(steps, run);
      && t.runStatus == s.runStatus[run := if cancelled then Cancelled else Interrupted]
      && t.threadStatus == s.threadStatus[w.s.active[run].threadId :=
                                          if cancelled then ThreadIdle else ThreadInterrupted]
      && run !in t.active
  {
    hide After, Executable, Inv, Handle;
    MarkedIff(w, steps, run);
    EventRecords(After(w, steps).s, run, RunInterrupted, minted);
    EventEnds(After(w, steps).s, run, RunInterrupted, minted);
  }
}
