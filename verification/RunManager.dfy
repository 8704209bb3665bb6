/**
 The run manager: the map of active runs, the message rows, and the handler that turns runtime
 events into row and status updates. Functions on `State` say what each handler step does; the class
 `AgentRunManager` holds the state and changes it in place.
 */
module RunManager {
  import opened Prelude
  import Strings

  type Id = string

  datatype RunStatus =
    | Created | Running | WaitingApproval | NeedsReply | WaitingToolResult | Cancelling
    | Completed | LimitReached | Failed | Interrupted | Cancelled

  datatype ThreadStatus =
    ThreadIdle | ThreadRunning | ThreadWaitingApproval | ThreadNeedsReply | ThreadInterrupted | ThreadFailed

  function ToThreadStatus(s: RunStatus): ThreadStatus {
    match s
    case Created => ThreadRunning
    case Running => ThreadRunning
    case WaitingToolResult => ThreadRunning
    case Cancelling => ThreadRunning
    case WaitingApproval => ThreadWaitingApproval
    case NeedsReply => ThreadNeedsReply
    case LimitReached => ThreadNeedsReply
    case Interrupted => ThreadInterrupted
    case Failed => ThreadFailed
    case Completed => ThreadIdle
    case Cancelled => ThreadIdle
  }

  datatype RowStatus = Streaming | RowCompleted | Discarded | RowFailed

  datatype RowKind = Reply | Reasoning | UserText

  /** A row of the messages table; `signature` and `turnIndex` are its metadata. */
  datatype Row = Row(
    runId: Option<Id>,
    kind: RowKind,
    content: string,
    status: RowStatus,
    signature: Option<string>,
    turnIndex: Option<nat>)

  datatype ActiveRun = ActiveRun(
    threadId: Id,
    streaming: Option<Id>,
    lastCompleted: Option<Id>,
    reasoning: Option<Id>,
    cancelRequested: bool)

  datatype State = State(
    active: map<Id, ActiveRun>,
    rows: map<Id, Row>,
    runStatus: map<Id, RunStatus>,
    threadStatus: map<Id, ThreadStatus>)

  datatype StreamEvent =
    | RunStarted
    | RunRetrying
    | RequestRetrying
    | MessageDelta(id: Id, delta: string)
    | MessageCompleted(id: Id, content: string, turnIndex: Option<nat>)
    | MessageDiscarded(id: Id)
    | ReasoningUpdated(id: Id, reasoning: string, signature: Option<string>, turnIndex: Option<nat>)
    | UserMessageRecorded(id: Id, content: string)
    | WorkRequested        // a tool or a subagent was started
    | ApprovalRequired
    | ClarifyRequired
    | RequestResolved      // an approval or a clarification was answered
    | WorkFinished         // a tool or a subagent ended
    | UsageUpdated
    | ContextCompressing
    | RunCheckpointed
    | RunCompleted
    | RunLimitReached
    | RunFailed
    | RunCancelled
    | RunInterrupted
    | Other                // queue snapshots, progress, task boards and the like

  predicate Finishing(e: StreamEvent) {
    e.RunCompleted? || e.RunLimitReached? || e.RunFailed? || e.RunCancelled? || e.RunInterrupted?
  }

  predicate Terminal(e: StreamEvent) {
    e.RunCheckpointed? || Finishing(e)
  }

  predicate CompletesReasoning(e: StreamEvent) {
    !(e.RunStarted? || e.RunRetrying? || e.RequestRetrying? || e.ReasoningUpdated? || e.UserMessageRecorded?
      || e.UsageUpdated? || e.ContextCompressing? || Terminal(e))
  }

  function FinalStatus(e: StreamEvent, cancelRequested: bool): RunStatus
    requires Finishing(e)
  {
    match e
    case RunCompleted => Completed
    case RunLimitReached => LimitReached
    case RunFailed => Failed
    case RunCancelled => Cancelled
    case RunInterrupted => if cancelRequested then Cancelled else Interrupted
  }

  // ---------------------------------------------------------------- tables

  function SetRowStatus(rows: map<Id, Row>, id: Id, status: RowStatus): map<Id, Row> {
    if id in rows then rows[id := rows[id].(status := status)] else rows
  }

  function SetRun(s: State, run: Id, status: RunStatus): State {
    if run in s.runStatus then s.(runStatus := s.runStatus[run := status]) else s
  }

  function SetThread(s: State, thread: Id, status: ThreadStatus): State {
    if thread in s.threadStatus then s.(threadStatus := s.threadStatus[thread := status]) else s
  }

  function ThreadOf(s: State, run: Id): Id {
    if run in s.active then s.active[run].threadId else ""
  }

  function CancelRequested(s: State, run: Id): bool {
    run in s.active && s.active[run].cancelRequested
  }

  // ---------------------------------------------------------------- handler steps

  /** What a handler step leaves behind, and whether it ended without an error. */
  datatype Outcome = Outcome(state: State, ok: bool)

  function RequestedId(requested: Id, minted: Id): Id {
    if Strings.Trim(requested) == "" then minted else requested
  }

  function NewRow(run: Id, kind: RowKind): Row {
    Row(Some(run), kind, "", Streaming, None, None)
  }

  /** Ok leaves the run's streaming pointer set. */
  function EnsureStreaming(s: State, run: Id, requested: Id, minted: Id): (o: Outcome)
    ensures o.ok ==> run in o.state.active && o.state.active[run].streaming.Some?
  {
    if run !in s.active then Outcome(s, false)
    else if s.active[run].streaming.Some? then Outcome(s, true)
    else
      var id := RequestedId(requested, minted);
      if id in s.rows then Outcome(s, false)
      else Outcome(s.(rows := s.rows[id := NewRow(run, Reply)],
                      active := s.active[run := s.active[run].(streaming := Some(id), lastCompleted := None)]), true)
  }

  function CompleteReasoning(s: State, run: Id): Outcome {
    if run !in s.active then Outcome(s, false)
    else
      var pointer := s.active[run].reasoning;
      var rows := if pointer.Some? then SetRowStatus(s.rows, pointer.value, RowCompleted) else s.rows;
      Outcome(s.(active := s.active[run := s.active[run].(reasoning := None)], rows := rows), true)
  }

  /** Ok leaves the run's reasoning pointer at the requested id. A taken id is a primary-key error. */
  function EnsureReasoning(s: State, run: Id, id: Id): (o: Outcome)
    ensures o.ok ==> run in o.state.active && o.state.active[run].reasoning == Some(id)
  {
    if run in s.active && s.active[run].reasoning == Some(id) then Outcome(s, true)
    else
      var c := CompleteReasoning(s, run);
      if !c.ok || id in c.state.rows then Outcome(c.state, false)
      else Outcome(c.state.(rows := c.state.rows[id := NewRow(run, Reasoning)],
                            active := c.state.active[run := c.state.active[run].(reasoning := Some(id))]), true)
  }

  function OnDelta(s: State, run: Id, id: Id, delta: string, minted: Id): Outcome {
    var o := EnsureStreaming(s, run, id, minted);
    if !o.ok then o
    else
      var row := o.state.active[run].streaming.value;
      if row in o.state.rows then
        Outcome(o.state.(rows :=
                         o.state.rows[row := o.state.rows[row].(content := o.state.rows[row].content + delta)]), true)
      else o
  }

  function Finalized(r: Row, content: string, turnIndex: Option<nat>): Row {
    var r1 := if content != "" then r.(content := content) else r;
    var r2 := if turnIndex.Some? then r1.(turnIndex := turnIndex, signature := None) else r1;
    r2.(status := RowCompleted)
  }

  function OnCompleted(s: State, run: Id, id: Id, content: string, turnIndex: Option<nat>, minted: Id): Outcome {
    var o := EnsureStreaming(s, run, id, minted);
    if !o.ok then o
    else
      var a := o.state.active[run];
      var row := a.streaming.value;
      var rows :=
        if row in o.state.rows then o.state.rows[row := Finalized(o.state.rows[row], content, turnIndex)]
        else o.state.rows;
      Outcome(o.state.(rows := rows,
                       active := o.state.active[run := a.(lastCompleted := a.streaming, streaming := None)]), true)
  }

  function OnDiscarded(s: State, run: Id, id: Id): Outcome {
    var active :=
      if run in s.active && s.active[run].streaming == Some(id) then s.active[run := s.active[run].(streaming := None)]
      else s.active;
    Outcome(s.(rows := SetRowStatus(s.rows, id, Discarded), active := active), true)
  }

  function OnReasoning(s: State, run: Id, requested: Id, reasoning: string, signature: Option<string>,
                       turnIndex: Option<nat>, minted: Id): Outcome {
    var id := RequestedId(requested, minted);
    var o := EnsureReasoning(s, run, id);
    if !o.ok || id !in o.state.rows then o
    else
      var r := o.state.rows[id].(content := reasoning);
      var r' := if signature.Some? || turnIndex.Some? then r.(signature := signature, turnIndex := turnIndex) else r;
      Outcome(o.state.(rows := o.state.rows[id := r']), true)
  }

  function OnUserMessage(s: State, run: Id, id: Id, content: string): Outcome {
    if ThreadOf(s, run) == "" then Outcome(s, true)
    else if id in s.rows then Outcome(s, false)
    else Outcome(s.(rows := s.rows[id := Row(None, UserText, content, RowCompleted, None, None)]), true)
  }

  /** Whether a reasoning row left behind by an abnormal end is worth keeping. */
  predicate DiscardsReasoning(rows: map<Id, Row>, id: Id, status: RunStatus) {
    status != Completed && (id in rows ==> Strings.Trim(rows[id].content) == "" || rows[id].signature.None?)
  }

  /** The rows once the run's two rows are settled. */
  function FinishedRows(rows: map<Id, Row>, a: ActiveRun, status: RunStatus): map<Id, Row> {
    var rowStatus := if status == Failed then RowFailed else RowCompleted;
    var rows1 := if a.streaming.Some? then SetRowStatus(rows, a.streaming.value, rowStatus) else rows;
    if a.reasoning.None? then rows1
    else SetRowStatus(rows1, a.reasoning.value,
                      if DiscardsReasoning(rows1, a.reasoning.value, status) then Discarded else rowStatus)
  }

  /** Settles the run's two rows and its run and thread status; the run stays in the map. */
  function FinishRun(s: State, run: Id, status: RunStatus): Outcome {
    if run !in s.active then Outcome(s, false)
    else
      var a := s.active[run];
      var settled := s.(rows := FinishedRows(s.rows, a, status));
      Outcome(SetThread(SetRun(settled, run, status), a.threadId, ToThreadStatus(status)), true)
  }

  /** The event's own branch of the handler. */
  function Apply(s: State, run: Id, e: StreamEvent, minted: Id): Outcome {
    match e
    case RunStarted => Outcome(SetThread(SetRun(s, run, Running), ThreadOf(s, run), ThreadRunning), true)
    case RunRetrying => Outcome(SetRun(s, run, Running), true)
    case RequestRetrying => Outcome(SetRun(s, run, Running), true)
    case MessageDelta(id, delta) => OnDelta(s, run, id, delta, minted)
    case MessageCompleted(id, content, turnIndex) => OnCompleted(s, run, id, content, turnIndex, minted)
    case MessageDiscarded(id) => OnDiscarded(s, run, id)
    case ReasoningUpdated(id, reasoning, signature, turnIndex) =>
      OnReasoning(s, run, id, reasoning, signature, turnIndex, minted)
    case UserMessageRecorded(id, content) => OnUserMessage(s, run, id, content)
    case WorkRequested => Outcome(SetRun(s, run, WaitingToolResult), true)
    case ApprovalRequired =>
      Outcome(SetThread(SetRun(s, run, WaitingApproval), ThreadOf(s, run), ThreadWaitingApproval), true)
    case ClarifyRequired => Outcome(SetThread(SetRun(s, run, NeedsReply), ThreadOf(s, run), ThreadNeedsReply), true)
    case RequestResolved => Outcome(SetThread(SetRun(s, run, Running), ThreadOf(s, run), ThreadRunning), true)
    case WorkFinished => Outcome(if CancelRequested(s, run) then s else SetRun(s, run, Running), true)
    case UsageUpdated => Outcome(s, true)
    case ContextCompressing => Outcome(s, true)
    case RunCheckpointed =>
      Outcome(SetThread(SetRun(s, run, WaitingApproval), ThreadOf(s, run), ThreadWaitingApproval), true)
    case Other => Outcome(s, true)
    case _ => FinishRun(s, run, FinalStatus(e, CancelRequested(s, run)))
  }

  function RemoveRun(s: State, run: Id): State {
    s.(active := s.active - {run})
  }

  /** One runtime event of a run, handled to the end or up to its first error. */
  function Handle(s: State, run: Id, e: StreamEvent, minted: Id): Outcome {
    if Terminal(e) && run !in s.active then Outcome(s, true)
    else
      var c := if CompletesReasoning(e) then CompleteReasoning(s, run) else Outcome(s, true);
      if !c.ok then c
      else
        var o := Apply(c.state, run, e, minted);
        if o.ok && Terminal(e) then Outcome(RemoveRun(o.state, run), true) else o
  }

  // ---------------------------------------------------------------- starting and cancelling runs

  predicate HasRunOn(s: State, thread: Id) {
    exists r :: r in s.active && s.active[r].threadId == thread
  }

  const NEW_ACTIVE: ActiveRun := ActiveRun("", None, None, None, false)

  /** The guard of a start and of a compact run: at most one active run for a thread. */
  function Register(s: State, run: Id, thread: Id): Outcome {
    if HasRunOn(s, thread) then Outcome(s, false)
    else Outcome(s.(active := s.active[run := NEW_ACTIVE.(threadId := thread)]), true)
  }

  /** What a cancel request marks on the run; its status row follows in a step of its own. */
  function RequestCancel(s: State, run: Id): State {
    if run in s.active then s.(active := s.active[run := s.active[run].(cancelRequested := true)]) else s
  }

  /** The status rows a compact run writes at its end, whether or not it is still in the map. */
  function Finalize(s: State, run: Id, thread: Id, status: RunStatus): State {
    SetThread(SetRun(s, run, status), thread, ToThreadStatus(status))
  }

  // ---------------------------------------------------------------- the manager itself

  class AgentRunManager {
    var active: map<Id, ActiveRun>
    var rows: map<Id, Row>
    var runStatus: map<Id, RunStatus>
    var threadStatus: map<Id, ThreadStatus>

    function View(): State
      reads this
    {
      State(active, rows, runStatus, threadStatus)
    }

    constructor (s: State)
      ensures View() == s
    {
      active, rows, runStatus, threadStatus := s.active, s.rows, s.runStatus, s.threadStatus;
    }

    method UpdateRow(id: Id, status: RowStatus)
      modifies this`rows
      ensures rows == SetRowStatus(old(rows), id, status)
    {
      if id in rows {
        rows := rows[id := rows[id].(status := status)];
      }
    }

    method UpdateRun(run: Id, status: RunStatus)
      modifies this`runStatus
      ensures View() == SetRun(old(View()), run, status)
    {
      if run in runStatus {
        runStatus := runStatus[run := status];
      }
    }

    method UpdateThread(thread: Id, status: ThreadStatus)
      modifies this`threadStatus
      ensures View() == SetThread(old(View()), thread, status)
    {
      if thread in threadStatus {
        threadStatus := threadStatus[thread := status];
      }
    }

    method EnsureStreamingMessage(run: Id, requested: Id, minted: Id) returns (r: Option<Id>)
      modifies this`active, this`rows
      ensures Outcome(View(), r.Some?) == EnsureStreaming(old(View()), run, requested, minted)
      ensures r.Some? ==> run in active && active[run].streaming == r
    {
      if run !in active {
        return None;
      }
      if active[run].streaming.Some? {
        return active[run].streaming;
      }
      var id := RequestedId(requested, minted);
      if id in rows {
        return None;
      }
      rows := rows[id := NewRow(run, Reply)];
      active := active[run := active[run].(streaming := Some(id), lastCompleted := None)];
      return Some(id);
    }

    method CompleteActiveReasoning(run: Id) returns (ok: bool)
      modifies this`active, this`rows
      ensures Outcome(View(), ok) == CompleteReasoning(old(View()), run)
    {
      if run !in active {
        return false;
      }
      var pointer := active[run].reasoning;
      active := active[run := active[run].(reasoning := None)];
      if pointer.Some? {
        UpdateRow(pointer.value, RowCompleted);
      }
      return true;
    }

    method EnsureReasoningMessage(run: Id, id: Id) returns (ok: bool)
      modifies this`active, this`rows
      ensures Outcome(View(), ok) == EnsureReasoning(old(View()), run, id)
    {
      if run in active && active[run].reasoning == Some(id) {
        return true;
      }
      var completed := CompleteActiveReasoning(run);
      if !completed || id in rows {
        return false;
      }
      rows := rows[id := NewRow(run, Reasoning)];
      active := active[run := active[run].(reasoning := Some(id))];
      return true;
    }

    method HandleDelta(run: Id, id: Id, delta: string, minted: Id) returns (ok: bool)
      modifies this`active, this`rows
      ensures Outcome(View(), ok) == OnDelta(old(View()), run, id, delta, minted)
    {
      var row := EnsureStreamingMessage(run, id, minted);
      if row.None? {
        return false;
      }
      if row.value in rows {
        rows := rows[row.value := rows[row.value].(content := rows[row.value].content + delta)];
      }
      return true;
    }

    method HandleCompleted(run: Id, id: Id, content: string, turnIndex: Option<nat>, minted: Id) returns (ok: bool)
      modifies this`active, this`rows
      ensures Outcome(View(), ok) == OnCompleted(old(View()), run, id, content, turnIndex, minted)
    {
      var row := EnsureStreamingMessage(run, id, minted);
      if row.None? {
        return false;
      }
      if row.value in rows {
        var r := rows[row.value];
        if content != "" {
          r := r.(content := content);
        }
        if turnIndex.Some? {
          r := r.(turnIndex := turnIndex, signature := None);
        }
        rows := rows[row.value := r.(status := RowCompleted)];
      }
      active := active[run := active[run].(lastCompleted := active[run].streaming, streaming := None)];
      return true;
    }

    method HandleReasoning(run: Id, requested: Id, reasoning: string, signature: Option<string>,
                           turnIndex: Option<nat>, minted: Id)
      returns (ok: bool)
      modifies this`active, this`rows
      ensures Outcome(View(), ok) == OnReasoning(old(View()), run, requested, reasoning, signature, turnIndex, minted)
    {
      hide EnsureReasoning, RequestedId;
      var id := RequestedId(requested, minted);
      ok := EnsureReasoningMessage(run, id);
      if ok && id in rows {
        rows := rows[id := rows[id].(content := reasoning)];
        if signature.Some? || turnIndex.Some? {
          rows := rows[id := rows[id].(signature := signature, turnIndex := turnIndex)];
        }
      }
    }

    method Finish(run: Id, status: RunStatus) returns (ok: bool)
      modifies this`rows, this`runStatus, this`threadStatus
      ensures Outcome(View(), ok) == FinishRun(old(View()), run, status)
    {
      if run !in active {
        return false;
      }
      var a := active[run];
      var rowStatus := if status == Failed then RowFailed else RowCompleted;
      if a.streaming.Some? {
        UpdateRow(a.streaming.value, rowStatus);
      }
      if a.reasoning.Some? {
        var effective := if DiscardsReasoning(rows, a.reasoning.value, status) then Discarded else rowStatus;
        UpdateRow(a.reasoning.value, effective);
      }
      UpdateRun(run, status);
      UpdateThread(a.threadId, ToThreadStatus(status));
      return true;
    }

    method RemoveActiveRun(run: Id)
      modifies this`active
      ensures View() == RemoveRun(old(View()), run)
    {
      active := active - {run};
    }

    /** The event's own branch. */
    method ApplyEvent(run: Id, e: StreamEvent, minted: Id) returns (ok: bool)
      modifies this
      ensures Outcome(View(), ok) == Apply(old(View()), run, e, minted)
    {
      hide OnDelta, OnCompleted, OnReasoning, FinishRun, SetRun, SetThread, SetRowStatus, ThreadOf, CancelRequested,
           FinalStatus;
      ok := true;
      var thread := ThreadOf(View(), run);
      match e {
        case RunStarted =>
          UpdateRun(run, Running);
          UpdateThread(thread, ThreadRunning);
        case RunRetrying =>
          UpdateRun(run, Running);
        case RequestRetrying =>
          UpdateRun(run, Running);
        case MessageDelta(id, delta) =>
          ok := HandleDelta(run, id, delta, minted);
        case MessageCompleted(id, content, turnIndex) =>
          ok := HandleCompleted(run, id, content, turnIndex, minted);
        case MessageDiscarded(id) =>
          UpdateRow(id, Discarded);
          if run in active && active[run].streaming == Some(id) {
            active := active[run := active[run].(streaming := None)];
          }
        case ReasoningUpdated(id, reasoning, signature, turnIndex) =>
          ok := HandleReasoning(run, id, reasoning, signature, turnIndex, minted);
        case UserMessageRecorded(id, content) =>
          if thread != "" {
            if id in rows {
              return false;
            }
            rows := rows[id := Row(None, UserText, content, RowCompleted, None, None)];
          }
        case WorkRequested =>
          UpdateRun(run, WaitingToolResult);
        case ApprovalRequired =>
          UpdateRun(run, WaitingApproval);
          UpdateThread(thread, ThreadWaitingApproval);
        case ClarifyRequired =>
          UpdateRun(run, NeedsReply);
          UpdateThread(thread, ThreadNeedsReply);
        case RequestResolved =>
          UpdateRun(run, Running);
          UpdateThread(thread, ThreadRunning);
        case WorkFinished =>
          if !CancelRequested(View(), run) {
            UpdateRun(run, Running);
          }
        case UsageUpdated =>
        case ContextCompressing =>
        case RunCheckpointed =>
          UpdateRun(run, WaitingApproval);
          UpdateThread(thread, ThreadWaitingApproval);
        case Other =>
        case _ =>
          ok := Finish(run, FinalStatus(e, CancelRequested(View(), run)));
      }
    }

    method HandleRuntimeEvent(run: Id, e: StreamEvent, minted: Id) returns (ok: bool)
      modifies this
      ensures Outcome(View(), ok) == Handle(old(View()), run, e, minted)
    {
      hide Apply, CompleteReasoning;
      if Terminal(e) && run !in active {
        return true;
      }
      if CompletesReasoning(e) {
        var completed := CompleteActiveReasoning(run);
        if !completed {
          return false;
        }
      }
      ok := ApplyEvent(run, e, minted);
      if ok && Terminal(e) {
        RemoveActiveRun(run);
      }
    }

    /** The run a cancel request found and marked, if the thread has one. */
    method MarkCancellationRequested(thread: Id) returns (r: Option<Id>)
      modifies this`active
      ensures r.Some? <==> HasRunOn(old(View()), thread)
      ensures r.Some? ==> r.value in old(active) && old(active)[r.value].threadId == thread
      ensures View() == if r.Some? then RequestCancel(old(View()), r.value) else old(View())
    {
      if !(exists r :: r in active && active[r].threadId == thread) {
        return None;
      }
      var run :| run in active && active[run].threadId == thread;
      active := active[run := active[run].(cancelRequested := true)];
      return Some(run);
    }

    method FinalizeRun(run: Id, thread: Id, status: RunStatus)
      modifies this`runStatus, this`threadStatus
      ensures View() == Finalize(old(View()), run, thread, status)
    {
      UpdateRun(run, status);
      UpdateThread(thread, ToThreadStatus(status));
    }

    /** The guard at the head of a start or a compact run. */
    method RegisterRun(run: Id, thread: Id) returns (ok: bool)
      modifies this`active
      ensures Outcome(View(), ok) == Register(old(View()), run, thread)
    {
      if exists r :: r in active && active[r].threadId == thread {
        return false;
      }
      active := active[run := ActiveRun(thread, None, None, None, false)];
      return true;
    }
  }
}
