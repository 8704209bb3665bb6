/**
 Where each tool call ends up, said on the rows alone, and short transcripts letter by letter: one row of
 each kind, one call, a call behind a reply, and a call behind a reply with reasoning in between.
 */
module HistoryPlacement {
  import opened Prelude
  import opened Strings
  import opened History
  import opened HistoryTimeline
  import opened HistoryConvert
  import opened HistoryShape

  // ---------------------------------------------------------------- on the rows alone

  predicate TextReply(m: Row, run: string) {
    m.runId == Some(run) && m.role == "assistant" && m.messageType == "plain_message"
  }

  predicate ReasoningRow(m: Row, run: string) {
    m.runId == Some(run) && m.messageType == "reasoning"
  }

  /** Row q is the first of the call's run that is not older than the call; without one, q is the end. */
  ghost predicate Follows(rows: seq<Row>, call: Call, q: nat) {
    && q <= |rows|
    && (q < |rows| ==> rows[q].runId == Some(call.runId) && rows[q].createdAt >= call.startedAt)
    && forall j :: 0 <= j < q ==> !(rows[j].runId == Some(call.runId) && rows[j].createdAt >= call.startedAt)
  }

  /**
   Row p is a text reply with a text, the last of the call's run before the first row of the run that is not
   older than the call, and no reasoning of the run stands in between.
   */
  ghost predicate Belongs(rows: seq<Row>, call: Call, p: nat) {
    && p < |rows| && TextReply(rows[p], call.runId) && Trim(rows[p].content) != ""
    && exists q :: Follows(rows, call, q) && p < q && ClearBehind(rows, call, p, q)
  }

  /** Between p and q the call's run has neither a text reply nor reasoning. */
  predicate ClearBehind(rows: seq<Row>, call: Call, p: nat, q: nat) {
    forall j :: p < j < q && j < |rows| ==> !TextReply(rows[j], call.runId) && !ReasoningRow(rows[j], call.runId)
  }

  lemma FollowsIff(rows: seq<Row>, call: Call, q: nat)
    ensures Follows(rows, call, q) <==> q == InsertPos(rows, call)
  {
    var p := InsertPos(rows, call);
    hide InsertPos;
    assert Follows(rows, call, p);
  }

  lemma KeptIff(m: Row, call: Call)
    requires IsReply(m, call)
    ensures TextReply(m, call.runId) && (RowEntry(m).Some? <==> Trim(m.content) != "")
  {
    hide Trim;
    assert m.messageType[0] != "reasoning"[0];
  }

  lemma MergeTargetIff(rows: seq<Row>, call: Call, p: nat)
    ensures var q := InsertPos(rows, call);
      MergeTarget(rows, call, q) == p <==>
        p < q && TextReply(rows[p], call.runId) && ClearBehind(rows, call, p, q)
  {
    var q := InsertPos(rows, call);
    var last := LastReply(rows[..q], call);
    hide InsertPos, LastReply;
    assert last >= 0 ==> rows[..q][last] == rows[last];
    assert forall j :: 0 <= j < q ==> rows[..q][j] == rows[j];
    if p < q && TextReply(rows[p], call.runId) && forall j :: p < j < q ==> !TextReply(rows[j], call.runId) {
      assert IsReply(rows[..q][p], call);
      assert last == p;
    }
    assert last >= 0 ==> IsReply(rows[..q][last], call);
  }

  /**
   A call goes into the reply it belongs to; without one it stands alone where the first row not older than it
   stands.
   */
  lemma PlaceIff(rows: seq<Row>, call: Call, p: nat)
    ensures PlaceOf(rows, call) == Merged(p) <==> Belongs(rows, call, p)
    ensures PlaceOf(rows, call) == Standalone(p) <==> Follows(rows, call, p) && !BelongsAnywhere(rows, call)
  {
    hide InsertPos, MergeTarget, RowEntry, Trim, Follows, Belongs;
    var q := InsertPos(rows, call);
    FollowsIff(rows, call, p);
    BelongsIff(rows, call, p);
    var t := MergeTarget(rows, call, q);
    if t >= 0 {
      BelongsIff(rows, call, t);
    }
    if k :| 0 <= k < |rows| && Belongs(rows, call, k) {
      BelongsIff(rows, call, k);
    }
  }

  /** The call belongs to some row. */
  ghost predicate BelongsAnywhere(rows: seq<Row>, call: Call) {
    exists k :: 0 <= k < |rows| && Belongs(rows, call, k)
  }

  lemma BelongsIff(rows: seq<Row>, call: Call, k: nat)
    ensures var t := MergeTarget(rows, call, InsertPos(rows, call));
      Belongs(rows, call, k) <==> t == k && RowEntry(rows[t]).Some?
  {
    hide InsertPos, MergeTarget, RowEntry, Trim, Follows, ClearBehind;
    var q := InsertPos(rows, call);
    MergeTargetIff(rows, call, k);
    FollowsIff(rows, call, q);
    if Belongs(rows, call, k) {
      var r :| Follows(rows, call, r) && k < r && ClearBehind(rows, call, k, r);
      FollowsIff(rows, call, r);
    }
    if k < q && TextReply(rows[k], call.runId) {
      KeptIff(rows[k], call);
    }
  }

  // ---------------------------------------------------------------- the calls a row holds

  /** A block is the call: its id, its tool, its input. */
  predicate IsCall(b: Block, call: Call) {
    b == ToolCall(call.id, call.name, call.input)
  }

  /**
   The message of a row that is a reply with a text: the text, then the completed calls that belong to the
   row, in the order of the calls table; it stops for tool use if there are any.
   */
  lemma RowHolds(rows: seq<Row>, calls: seq<Call>, p: nat) returns (held: seq<nat>)
    requires p < |rows| && rows[p].role == "assistant" && rows[p].messageType == "plain_message"
            && Trim(rows[p].content) != ""
    ensures forall a, b :: 0 <= a < b < |held| ==> held[a] < held[b]
    ensures forall i: nat :: i in held <==> i < |calls| && calls[i].status == "completed" && Belongs(rows, calls[i], p)
    ensures var e := EntryAt(rows, calls, SortKey(p, 2, 0));
      && e.Some? && e.value.Msg? && e.value.message.Assistant?
      && var m := e.value.message;
         && m.stop == (if held == [] then Stop else ToolUse)
         && |m.content| == 1 + |held| && m.content[0] == Text(rows[p].content)
         && forall k :: 0 <= k < |held| ==> held[k] < |calls| && IsCall(m.content[1 + k], calls[held[k]])
  {
    held := Placed(rows, calls, Merged(p));
    KeptReply(rows[p]);
    MergeableRow(rows, calls, p);
    assert RowKey(p) == SortKey(p, 2, 0);
    hide RowEntry, Trim, PlaceOf, Placed, Belongs, EntryAt;
    forall i: nat ensures i in held <==> i < |calls| && calls[i].status == "completed" && Belongs(rows, calls[i], p) {
      if i < |calls| {
        PlaceIff(rows, calls[i], p);
      }
    }
  }

  /** The slot holds a call with the id. */
  predicate HoldsCall(s: Slot, id: string) {
    s.entry.Msg? && s.entry.message.Assistant? && exists b :: b in s.entry.message.content && b.ToolCall? && b.id == id
  }

  lemma SlotHolds(rows: seq<Row>, calls: seq<Call>, a: nat)
    requires a < |Layout(rows, calls)|
    ensures var s := Layout(rows, calls)[a]; EntryAt(rows, calls, s.key) == Some(s.entry)
  {
    hide Layout, EntryAt, StrictlySorted, OneStandalone;
    LayoutRepresents(rows, calls);
  }

  lemma HoldsIff(s: Slot, calls: seq<Call>, held: seq<nat>, i: nat, text: string)
    requires i < |calls| && forall j :: 0 <= j < |calls| && j != i ==> calls[j].id != calls[i].id
    requires s.entry.Msg? && s.entry.message.Assistant?
    requires var content := s.entry.message.content;
      && |content| == 1 + |held| && content[0] == Text(text)
      && forall k :: 0 <= k < |held| ==> held[k] < |calls| && IsCall(content[1 + k], calls[held[k]])
    ensures HoldsCall(s, calls[i].id) <==> i in held
  {
    var content := s.entry.message.content;
    if i in held {
      var k :| 0 <= k < |held| && held[k] == i;
      assert content[1 + k] in content && IsCall(content[1 + k], calls[held[k]]);
    }
    if HoldsCall(s, calls[i].id) {
      var b :| b in content && b.ToolCall? && b.id == calls[i].id;
      var k :| 0 <= k < |content| && content[k] == b;
      assert k > 0 && IsCall(content[1 + (k - 1)], calls[held[k - 1]]);
      assert held[k - 1] in held;
    }
  }

  /**
   Of calls with ids of their own, a completed one is held by a reply row's message if and only if it belongs to
   the row.
   */
  lemma HeldIffBelongs(rows: seq<Row>, calls: seq<Call>, i: nat, p: nat, a: nat)
    requires i < |calls| && calls[i].status == "completed" && forall j :: 0 <= j < |calls| && j != i ==>
            calls[j].id != calls[i].id
    requires p < |rows| && rows[p].role == "assistant" && rows[p].messageType == "plain_message"
            && Trim(rows[p].content) != ""
    requires a < |Layout(rows, calls)| && Layout(rows, calls)[a].key == SortKey(p, 2, 0)
    ensures HoldsCall(Layout(rows, calls)[a], calls[i].id) <==> Belongs(rows, calls[i], p)
  {
    hide Layout, EntryAt, Belongs, Trim, HoldsCall;
    var s := Layout(rows, calls)[a];
    SlotHolds(rows, calls, a);
    var held := RowHolds(rows, calls, p);
    HoldsIff(s, calls, held, i, rows[p].content);
  }

  // ---------------------------------------------------------------- letter by letter

  /** What is given of a tool's output. */
  function Given(output: Option<string>): string {
    if output.None? then "[no output]"
    else if |output.value| <= 20_480 then output.value
    else
      output.value[..20_480] + "\n\n[Tool output truncated: " + Decimal(|output.value|) + " chars \U{2192} "
      + Decimal(20_480) + " chars]"
  }

  function CallIn(call: Call): Block {
    ToolCall(call.id, call.name, call.input)
  }

  function ResultFor(call: Call): AgentMessage {
    ToolResult(call.id, call.name, Given(call.output))
  }

  lemma ResultForIs(call: Call)
    ensures ResultOf(call) == ResultFor(call) && CallBlock(call) == CallIn(call)
  {
    hide Decimal;
  }

  lemma SinglePlaced(rows: seq<Row>, call: Call, w: Place)
    ensures Placed(rows, [call], w) == if call.status == "completed" && PlaceOf(rows, call) == w then [0] else []
  {
    hide PlaceOf;
    assert [call][..0] == [];
  }

  /** What one call adds to the rows at each position. */
  lemma SingleGroup(rows: seq<Row>, call: Call, p: nat)
    requires call.status == "completed" && !PlaceOf(rows, call).Merged?
    ensures Group(rows, [call], p) ==
            (if p < |rows| && RowEntry(rows[p]).Some? then [Slot(RowKey(p), RowEntry(rows[p]).value)] else [])
            + (if PlaceOf(rows, call) == Standalone(p) then
                 [Slot(StandaloneKey(p, 0), Msg(Assistant([CallIn(call)], ToolUse))),
                  Slot(StandaloneResultKey(p, 0), Msg(ResultFor(call)))]
               else [])
  {
    hide PlaceOf, RowEntry, ResultOf, Placed, Given;
    SinglePlaced(rows, call, Merged(p));
    SinglePlaced(rows, call, Standalone(p));
    ResultForIs(call);
    assert CallBlocks([call], [0]) == [CallIn(call)];
    assert StandaloneResults([call], [0], p) == [Slot(StandaloneResultKey(p, 0), Msg(ResultFor(call)))];
  }

  lemma FoldOne(init: seq<Slot>, s: Slot)
    ensures Fold(init + [s]) ==
            if s.entry.Msg? then Fold(init) + [Attach(TrailingThinking(init), s.entry.message)] else Fold(init)
    ensures TrailingThinking(init + [s]) ==
            if s.entry.PendingThinking? then TrailingThinking(init) + [s.entry.block] else []
  {
    assert (init + [s])[..|init|] == init;
  }

  /** A completed call of no known run: a message of its own, and its result. */
  lemma CallAlone(call: Call)
    ensures Reconstruct([], [call]) ==
            if call.status == "completed" then [Assistant([CallIn(call)], ToolUse), ResultFor(call)] else []
  {
    hide Given;
    if call.status == "completed" {
      PlaceIff([], call, 0);
      assert Follows([], call, 0);
      SingleGroup([], call, 0);
      var tl := Layout([], [call]);
      assert Groups([], [call], 0) == [] && tl == [] + Group([], [call], 0);
      hide PlaceOf, Group, Groups;
      PlainFold(tl);
    } else {
      SinglePlaced([], call, Merged(0));
      SinglePlaced([], call, Standalone(0));
      assert Groups([], [call], 0) == [] && Layout([], [call]) == [];
    }
  }

  /** What one row alone becomes. */
  function RowAlone(m: Row): seq<AgentMessage> {
    if m.messageType == "plain_message" && m.role == "user" then [User(m.userBlocks)]
    else if m.messageType == "plain_message" && m.role == "assistant" then
      if Trim(m.content) == "" then [] else [Assistant([Text(m.content)], Stop)]
    else if m.messageType == "plan" && m.role == "assistant" then [Assistant([Text(m.planText)], Stop)]
    else if m.messageType == "summary_marker" && m.marker == Some("context_summary") then
      if Trim(m.content) == "" then [] else [User([Text(Trim(m.content))])]
    else []
  }

  lemma RowAloneIs(m: Row)
    ensures Reconstruct([m], []) == RowAlone(m)
  {
    hide Trim;
    assert forall w :: Placed([m], [], w) == [];
    assert Groups([m], [], 0) == [] && Groups([m], [], 1) == [] + Group([m], [], 0) && Group([m], [], 1) == [];
    var tl := Layout([m], []);
    RowKinds(m);
    hide RowEntry, RowAlone, Groups;
    if RowEntry(m).Some? {
      assert tl == [] + [Slot(RowKey(0), RowEntry(m).value)];
      FoldOne([], Slot(RowKey(0), RowEntry(m).value));
      hide Group;
      if RowEntry(m).value.Msg? && RowEntry(m).value.message.Assistant? {
        var content := RowEntry(m).value.message.content;
        assert [] + content == content;
      }
    } else {
      assert tl == [];
    }
  }

  lemma RowKinds(m: Row)
    ensures RowEntry(m).Some? && RowEntry(m).value.Msg? ==> RowAlone(m) == [RowEntry(m).value.message]
    ensures RowEntry(m).None? || RowEntry(m).value.PendingThinking? ==> RowAlone(m) == []
  {
    hide Trim;
    assert "reasoning"[0] != "plain_message"[0] && "reasoning"[0] != "plan"[0]
        && "reasoning"[0] != "summary_marker"[0];
    assert "plan" != "plain_message" by { assert |"plan"| != |"plain_message"|; }
  }

  /**
   A reply, reasoning of the same run, and a later call of the run: the call goes to the reasoning, not into
   the reply, whatever the texts are.
   */
  lemma CallBehindReasoning(reply: Row, reasoning: Row, call: Call)
    requires TextReply(reply, call.runId) && ReasoningRow(reasoning, call.runId) && reasoning.role == "assistant"
    requires call.status == "completed" && reply.createdAt < call.startedAt && reasoning.createdAt < call.startedAt
    ensures Reconstruct([reply, reasoning], [call]) ==
            (if Trim(reply.content) == "" then [] else [Assistant([Text(reply.content)], Stop)])
            + [Assistant((if Trim(reasoning.content) == "" then []
                          else [Thinking(reasoning.content, reasoning.signature)])
                         + [CallIn(call)], ToolUse),
               ResultFor(call)]
  {
    hide PlaceOf, RowEntry, Groups, Group, Layout, Given, Trim, Fold, TrailingThinking;
    var rows := [reply, reasoning];
    BehindReasoning(reply, reasoning, call);
    BehindReasoningRows(reply, reasoning);
    SingleGroup(rows, call, 0);
    SingleGroup(rows, call, 1);
    SingleGroup(rows, call, 2);
    LayoutOfThree(rows, [call]);
    var first, second := Group(rows, [call], 0), Group(rows, [call], 1);
    FoldFirst(first);
    FoldSecond(first, second);
    var c := Slot(StandaloneKey(2, 0), Msg(Assistant([CallIn(call)], ToolUse)));
    var r := Slot(StandaloneResultKey(2, 0), Msg(ResultFor(call)));
    FoldCall(first + second, c, r);
    assert Group(rows, [call], 2) == [c, r];
  }

  lemma LayoutOfThree(rows: seq<Row>, calls: seq<Call>)
    requires |rows| == 2
    ensures Layout(rows, calls) == Group(rows, calls, 0) + Group(rows, calls, 1) + Group(rows, calls, 2)
  {
    hide Group;
    assert Groups(rows, calls, 0) == [] && Groups(rows, calls, 1) == [] + Group(rows, calls, 0);
    assert Groups(rows, calls, 2) == Groups(rows, calls, 1) + Group(rows, calls, 1);
  }

  lemma BehindReasoning(reply: Row, reasoning: Row, call: Call)
    requires TextReply(reply, call.runId) && ReasoningRow(reasoning, call.runId)
    requires reply.createdAt < call.startedAt && reasoning.createdAt < call.startedAt
    ensures PlaceOf([reply, reasoning], call) == Standalone(2)
  {
    hide PlaceOf, Trim;
    var rows := [reply, reasoning];
    PlaceIff(rows, call, 2);
    assert Follows(rows, call, 2);
    assert "reasoning"[0] != "plain_message"[0];
    forall q: nat ensures Follows(rows, call, q) ==> q == 2 {
      FollowsIff(rows, call, q);
      FollowsIff(rows, call, 2);
    }
    hide Follows;
    assert !ClearBehind(rows, call, 0, 2) by { assert ReasoningRow(rows[1], call.runId); }
    assert !TextReply(rows[1], call.runId);
  }

  lemma BehindReasoningRows(reply: Row, reasoning: Row)
    requires reply.role == "assistant" && reply.messageType == "plain_message"
    requires reasoning.role == "assistant" && reasoning.messageType == "reasoning"
    ensures RowEntry(reply) == if Trim(reply.content) == "" then None
            else Some(Msg(Assistant([Text(reply.content)], Stop)))
    ensures RowEntry(reasoning) ==
            if Trim(reasoning.content) == "" then None
            else Some(PendingThinking(Thinking(reasoning.content, reasoning.signature)))
  {
    hide Trim;
    assert "reasoning"[0] != "plain_message"[0];
  }

  /** A message or none. */
  lemma {:induction false} FoldFirst(first: seq<Slot>)
    requires |first| <= 1 && (first != [] ==> first[0].entry.Msg? && first[0].entry.message.Assistant?)
    ensures Fold(first) == if first == [] then [] else [first[0].entry.message]
    ensures TrailingThinking(first) == []
  {
    if first != [] {
      PlainFold(first);
    }
  }

  /** Then thinking or none. */
  lemma FoldSecond(first: seq<Slot>, second: seq<Slot>)
    requires |second| <= 1 && (second != [] ==> second[0].entry.PendingThinking?)
    requires TrailingThinking(first) == []
    ensures Fold(first + second) == Fold(first)
    ensures TrailingThinking(first + second) == if second == [] then [] else [second[0].entry.block]
  {
    hide Fold, TrailingThinking;
    if second == [] {
      assert first + second == first;
    } else {
      FoldOne(first, second[0]);
      assert first + second == first + [second[0]];
      assert [] + [second[0].entry.block] == [second[0].entry.block];
    }
  }

  /** Then a call of its own and its result. */
  lemma FoldCall(tl: seq<Slot>, c: Slot, r: Slot)
    requires c.entry.Msg? && c.entry.message.Assistant? && r.entry.Msg? && r.entry.message.ToolResult?
    ensures var m := c.entry.message;
      Fold(tl + [c, r]) == Fold(tl) + [m.(content := TrailingThinking(tl) + m.content), r.entry.message]
  {
    hide Fold, TrailingThinking;
    assert tl + [c, r] == (tl + [c]) + [r];
    FoldOne(tl + [c], r);
    FoldOne(tl, c);
  }

  /** A reply and a later call of its run, with nothing in between: one message holds both. */
  lemma CallBehindReply(reply: Row, call: Call)
    requires TextReply(reply, call.runId) && Trim(reply.content) != ""
    requires call.status == "completed" && reply.createdAt < call.startedAt
    ensures Reconstruct([reply], [call]) == [Assistant([Text(reply.content), CallIn(call)], ToolUse), ResultFor(call)]
  {
    hide PlaceOf, RowEntry, Trim, Given, Group, Layout, Groups, Fold;
    var rows, calls := [reply], [call];
    KeptReply(reply);
    LateMerges(reply, call);
    HoldingGroup(reply, call);
    assert Layout(rows, calls) == Group(rows, calls, 0) by { OneGroup(rows, calls); }
    PlainFold(Group(rows, calls, 0));
  }

  lemma OneGroup(rows: seq<Row>, calls: seq<Call>)
    requires |rows| == 1 && Group(rows, calls, 1) == []
    ensures Layout(rows, calls) == Group(rows, calls, 0)
  {
    hide Group;
    assert Groups(rows, calls, 0) == [] && Groups(rows, calls, 1) == [] + Group(rows, calls, 0);
  }

  lemma HoldingGroup(reply: Row, call: Call)
    requires RowEntry(reply) == Some(Msg(Assistant([Text(reply.content)], Stop)))
    requires call.status == "completed" && PlaceOf([reply], call) == Merged(0)
    ensures Group([reply], [call], 0) ==
            [Slot(RowKey(0), Msg(Assistant([Text(reply.content), CallIn(call)], ToolUse))),
             Slot(MergedKey(0, 0), Msg(ResultFor(call)))]
    ensures Group([reply], [call], 1) == []
  {
    hide PlaceOf, RowEntry, ResultOf, Given, Placed;
    var rows, calls := [reply], [call];
    ResultForIs(call);
    SinglePlaced(rows, call, Merged(0));
    SinglePlaced(rows, call, Standalone(0));
    SinglePlaced(rows, call, Merged(1));
    SinglePlaced(rows, call, Standalone(1));
    assert CallBlocks(calls, [0]) == [CallIn(call)];
    assert [Text(reply.content)] + [CallIn(call)] == [Text(reply.content), CallIn(call)];
    assert RowEntry(rows[0]) == RowEntry(reply);
  }
}
