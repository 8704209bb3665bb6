/**
 Rebuilding a model transcript from two tables: message rows and tool calls.

 `ConvertHistoryMessages` works in the source's four phases (timeline, merge or insert tool calls,
 sort, fold thinking). `Reconstruct` is an independent closed form of the result: position by
 position, the row, the standalone calls placed there, and the results of the calls merged into it.
 */
module History {
  import opened Prelude
  import opened Strings

  const TOOL_RESULT_MAX_CHARS := 20_480

  datatype Block =
    | Text(text: string)
    | Image(data: string)
    | Thinking(thinking: string, signature: Option<string>)
    | ToolCall(id: string, name: string, input: string)

  datatype StopReason = Stop | ToolUse

  datatype AgentMessage =
    | User(blocks: seq<Block>)
    | Assistant(content: seq<Block>, stop: StopReason)
    | ToolResult(callId: string, toolName: string, text: string)

  /**
   A row of the messages table. `userBlocks`, `planText`, `signature` and `marker` stand for what the
   source parses out of the row's content, attachments and metadata; creation times are only compared.
   */
  datatype Row = Row(
    runId: Option<string>,
    role: string,
    messageType: string,
    content: string,
    createdAt: nat,
    signature: Option<string>,
    marker: Option<string>,
    userBlocks: seq<Block>,
    planText: string)

  datatype Call = Call(
    id: string,
    runId: string,
    name: string,
    input: string,
    output: Option<string>,
    status: string,
    startedAt: nat)

  // ---------------------------------------------------------------- timeline

  datatype SortKey = SortKey(position: nat, sub: nat, seqNo: nat)

  const MERGED_TOOL_RESULT := 0
  const POSITIONAL := 2
  const STANDALONE_TOOL_CALL := 3

  predicate Before(a: SortKey, b: SortKey) {
    || a.position < b.position
    || (a.position == b.position && a.sub < b.sub)
    || (a.position == b.position && a.sub == b.sub && a.seqNo < b.seqNo)
  }

  datatype Entry = Msg(message: AgentMessage) | PendingThinking(block: Block)

  datatype Slot = Slot(key: SortKey, entry: Entry)

  function RowKey(p: nat): SortKey {
    SortKey(p, POSITIONAL, 0)
  }

  function MergedKey(p: nat, i: nat): SortKey {
    SortKey(p + 1, MERGED_TOOL_RESULT, i * 2 + 1)
  }

  function StandaloneKey(p: nat, i: nat): SortKey {
    SortKey(p, STANDALONE_TOOL_CALL, i * 2)
  }

  function StandaloneResultKey(p: nat, i: nat): SortKey {
    SortKey(p, STANDALONE_TOOL_CALL, i * 2 + 1)
  }

  /** Phase 1 for one row; None when the row leaves no trace in the transcript. */
  function RowEntry(m: Row): Option<Entry> {
    if m.messageType == "reasoning" && m.role == "assistant" then
      if Trim(m.content) == "" then None else Some(PendingThinking(Thinking(m.content, m.signature)))
    else if m.messageType == "plain_message" then
      if m.role == "user" then Some(Msg(User(m.userBlocks)))
      else if m.role == "assistant" then
        if Trim(m.content) == "" then None else Some(Msg(Assistant([Text(m.content)], Stop)))
      else None
    else if m.messageType == "plan" && m.role == "assistant" then
      Some(Msg(Assistant([Text(m.planText)], Stop)))
    else if m.messageType == "summary_marker" && m.marker == Some("context_summary") then
      if Trim(m.content) == "" then None else Some(Msg(User([Text(Trim(m.content))])))
    else None
  }

  // ---------------------------------------------------------------- where a tool call goes

  predicate SameRun(m: Row, call: Call) {
    m.runId == Some(call.runId)
  }

  /** The first row of the call's run that is not older than the call, or |rows|. */
  function InsertPos(rows: seq<Row>, call: Call): (p: nat)
    ensures p <= |rows|
    ensures p < |rows| ==> SameRun(rows[p], call) && rows[p].createdAt >= call.startedAt
    ensures forall j :: 0 <= j < p ==> !(SameRun(rows[j], call) && rows[j].createdAt >= call.startedAt)
  {
    if rows == [] then 0
    else if SameRun(rows[0], call) && rows[0].createdAt >= call.startedAt then 0
    else 1 + InsertPos(rows[1..], call)
  }

  predicate IsReply(m: Row, call: Call) {
    SameRun(m, call) && m.role == "assistant" && m.messageType == "plain_message"
  }

  /** The last text reply of the call's run among the rows, or -1. */
  function LastReply(rows: seq<Row>, call: Call): (p: int)
    ensures -1 <= p < |rows|
    ensures 0 <= p ==> IsReply(rows[p], call)
    ensures forall j :: p < j < |rows| ==> !IsReply(rows[j], call)
  {
    if rows == [] then -1
    else if IsReply(rows[|rows| - 1], call) then |rows| - 1
    else LastReply(rows[..|rows| - 1], call)
  }

  predicate ReasoningBetween(rows: seq<Row>, call: Call, from: nat, to: nat)
    requires from <= to <= |rows|
  {
    exists j :: from <= j < to && SameRun(rows[j], call) && rows[j].messageType == "reasoning"
  }

  /** The reply to merge the call into, or -1: none, or reasoning stands in between. */
  function MergeTarget(rows: seq<Row>, call: Call, insertPos: nat): (p: int)
    requires insertPos <= |rows|
    ensures -1 <= p < insertPos
    ensures 0 <= p ==> IsReply(rows[p], call)
  {
    var p := LastReply(rows[..insertPos], call);
    if p >= 0 && !ReasoningBetween(rows, call, p + 1, insertPos) then p else -1
  }

  datatype Place = Merged(p: nat) | Standalone(q: nat)

  /** A call merges only into a reply that phase 1 kept. */
  function PlaceOf(rows: seq<Row>, call: Call): (w: Place)
    ensures w.Merged? ==> w.p < |rows| && RowEntry(rows[w.p]) == Some(Msg(Assistant([Text(rows[w.p].content)], Stop)))
    ensures w.Standalone? ==> w.q <= |rows|
  {
    var insertPos := InsertPos(rows, call);
    var p := MergeTarget(rows, call, insertPos);
    if p >= 0 && RowEntry(rows[p]).Some? then Merged(p) else Standalone(insertPos)
  }

  function CallBlock(call: Call): Block {
    ToolCall(call.id, call.name, call.input)
  }

  function TruncateToolResult(text: string, maxChars: nat): string {
    if |text| <= maxChars then text
    else
      text[..maxChars] + "\n\n[Tool output truncated: "
      + Decimal(|text|) + " chars \U{2192} " + Decimal(maxChars) + " chars]"
  }

  function ResultOf(call: Call): AgentMessage {
    ToolResult(call.id, call.name,
               if call.output.Some? then TruncateToolResult(call.output.value, TOOL_RESULT_MAX_CHARS)
                 else "[no output]")
  }

  // ---------------------------------------------------------------- the closed form

  /** The indices, ascending, of the completed calls that go to w. */
  function Placed(rows: seq<Row>, calls: seq<Call>, w: Place): (r: seq<nat>)
    ensures forall k :: 0 <= k < |r| ==>
            r[k] < |calls| && calls[r[k]].status == "completed" && PlaceOf(rows, calls[r[k]]) == w
    ensures forall a, b :: 0 <= a < b < |r| ==> r[a] < r[b]
    ensures forall i :: 0 <= i < |calls| && calls[i].status == "completed" && PlaceOf(rows, calls[i]) == w ==> i in r
  {
    if calls == [] then []
    else
      var last := |calls| - 1;
      var r := Placed(rows, calls[..last], w);
      if calls[last].status == "completed" && PlaceOf(rows, calls[last]) == w then r + [last] else r
  }

  function CallBlocks(calls: seq<Call>, indices: seq<nat>): (r: seq<Block>)
    requires forall k :: 0 <= k < |indices| ==> indices[k] < |calls|
    ensures |r| == |indices|
    ensures forall k :: 0 <= k < |r| ==> r[k] == CallBlock(calls[indices[k]])
  {
    seq(|indices|, k requires 0 <= k < |indices| => CallBlock(calls[indices[k]]))
  }

  /** The row's own entry, with the calls merged into it appended. */
  function RowMessage(rows: seq<Row>, calls: seq<Call>, p: nat): Option<Entry> {
    if p >= |rows| then None
    else
      var merged := Placed(rows, calls, Merged(p));
      var entry := RowEntry(rows[p]);
      if entry.Some? && entry.value.Msg? && entry.value.message.Assistant? && merged != [] then
        Some(Msg(Assistant(entry.value.message.content + CallBlocks(calls, merged), ToolUse)))
      else entry
  }

  function RowSlots(rows: seq<Row>, calls: seq<Call>, p: nat): seq<Slot> {
    var entry := RowMessage(rows, calls, p);
    if entry.Some? then [Slot(RowKey(p), entry.value)] else []
  }

  function StandaloneMessage(calls: seq<Call>, indices: seq<nat>): AgentMessage
    requires forall k :: 0 <= k < |indices| ==> indices[k] < |calls|
  {
    Assistant(CallBlocks(calls, indices), ToolUse)
  }

  function StandaloneResults(calls: seq<Call>, indices: seq<nat>, p: nat): (r: seq<Slot>)
    requires forall k :: 0 <= k < |indices| ==> indices[k] < |calls|
    ensures |r| == |indices|
    ensures forall k :: 0 <= k < |r| ==>
            r[k] == Slot(StandaloneResultKey(p, indices[k]), Msg(ResultOf(calls[indices[k]])))
  {
    seq(|indices|,
        k requires 0 <= k < |indices| => Slot(StandaloneResultKey(p, indices[k]), Msg(ResultOf(calls[indices[k]]))))
  }

  /** One assistant message holding all calls that stand alone at p, then their results. */
  function StandaloneSlots(rows: seq<Row>, calls: seq<Call>, p: nat): seq<Slot> {
    var indices := Placed(rows, calls, Standalone(p));
    if indices == [] then []
    else
      [Slot(StandaloneKey(p, indices[0]), Msg(StandaloneMessage(calls, indices)))]
      + StandaloneResults(calls, indices, p)
  }

  /** The results of the calls merged into row p. */
  function MergedSlots(rows: seq<Row>, calls: seq<Call>, p: nat): (r: seq<Slot>)
    ensures |r| == |Placed(rows, calls, Merged(p))|
  {
    var indices := Placed(rows, calls, Merged(p));
    seq(|indices|, k requires 0 <= k < |indices| => Slot(MergedKey(p, indices[k]), Msg(ResultOf(calls[indices[k]]))))
  }

  function Group(rows: seq<Row>, calls: seq<Call>, p: nat): seq<Slot> {
    RowSlots(rows, calls, p) + StandaloneSlots(rows, calls, p) + MergedSlots(rows, calls, p)
  }

  /** The groups of the first `count` positions. */
  function Groups(rows: seq<Row>, calls: seq<Call>, count: nat): seq<Slot> {
    if count == 0 then [] else Groups(rows, calls, count - 1) + Group(rows, calls, count - 1)
  }

  /** The whole sorted timeline: positions 0 up to and including |rows|. */
  function Layout(rows: seq<Row>, calls: seq<Call>): seq<Slot> {
    Groups(rows, calls, |rows| + 1)
  }

  /** The thinking blocks at the end of the timeline that no message has followed yet. */
  function TrailingThinking(tl: seq<Slot>): seq<Block> {
    if tl == [] then []
    else
      var last := tl[|tl| - 1].entry;
      if last.PendingThinking? then TrailingThinking(tl[..|tl| - 1]) + [last.block] else []
  }

  function Attach(thinking: seq<Block>, m: AgentMessage): AgentMessage {
    if m.Assistant? then m.(content := thinking + m.content) else m
  }

  /** Phase 4 as a closed form: each message with the thinking run right before it. */
  function Fold(tl: seq<Slot>): seq<AgentMessage> {
    if tl == [] then []
    else
      var init, last := tl[..|tl| - 1], tl[|tl| - 1].entry;
      if last.Msg? then Fold(init) + [Attach(TrailingThinking(init), last.message)] else Fold(init)
  }

  function Reconstruct(rows: seq<Row>, calls: seq<Call>): seq<AgentMessage> {
    Fold(Layout(rows, calls))
  }
}
