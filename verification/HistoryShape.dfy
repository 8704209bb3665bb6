/** What else a rebuilt transcript keeps: stop reasons, thinking, and the text rows themselves. */
module HistoryShape {
  import opened Prelude
  import opened Strings
  import opened History
  import opened HistoryPairing

  // ---------------------------------------------------------------- stop reasons

  ghost predicate HasCall(blocks: seq<Block>) {
    exists i :: 0 <= i < |blocks| && blocks[i].ToolCall?
  }

  ghost predicate StopsRight(m: AgentMessage) {
    m.Assistant? ==> (m.stop == ToolUse <==> HasCall(m.content))
  }

  ghost predicate AllStopRight(tl: seq<Slot>) {
    forall a :: 0 <= a < |tl| && tl[a].entry.Msg? ==> StopsRight(tl[a].entry.message)
  }

  lemma RowStopsRight(rows: seq<Row>, calls: seq<Call>, p: nat)
    ensures AllStopRight(RowSlots(rows, calls, p))
  {
    hide Placed, PlaceOf, Trim;
    var tl := RowSlots(rows, calls, p);
    if tl != [] && tl[0].entry.Msg? && tl[0].entry.message.Assistant? {
      var content := tl[0].entry.message.content;
      var merged := Placed(rows, calls, Merged(p));
      if merged != [] {
        var blocks := CallBlocks(calls, merged);
        assert content[|content| - 1] == blocks[|blocks| - 1];
        assert content[|content| - 1].ToolCall?;
      }
    }
  }

  lemma GroupStopsRight(rows: seq<Row>, calls: seq<Call>, p: nat)
    ensures AllStopRight(Group(rows, calls, p))
  {
    hide RowSlots, Placed, PlaceOf;
    RowStopsRight(rows, calls, p);
    var s := StandaloneSlots(rows, calls, p);
    if s != [] {
      assert s[0].entry.message.content[0].ToolCall?;
    }
    assert AllStopRight(s);
    assert AllStopRight(MergedSlots(rows, calls, p));
  }

  lemma {:induction false} GroupsStopRight(rows: seq<Row>, calls: seq<Call>, count: nat)
    ensures AllStopRight(Groups(rows, calls, count))
  {
    hide Group;
    if count > 0 {
      GroupsStopRight(rows, calls, count - 1);
      GroupStopsRight(rows, calls, count - 1);
      var a, b := Groups(rows, calls, count - 1), Group(rows, calls, count - 1);
      assert forall i :: 0 <= i < |a + b| ==> (a + b)[i] == if i < |a| then a[i] else b[i - |a|];
    }
  }

  lemma AttachStopsRight(thinking: seq<Block>, m: AgentMessage)
    requires StopsRight(m) && forall b :: b in thinking ==> b.Thinking?
    ensures StopsRight(Attach(thinking, m))
  {
    if m.Assistant? {
      var c := thinking + m.content;
      if HasCall(m.content) {
        var i :| 0 <= i < |m.content| && m.content[i].ToolCall?;
        assert c[|thinking| + i].ToolCall?;
      }
      if HasCall(c) {
        assert forall j :: 0 <= j < |thinking| ==> c[j] == thinking[j] && thinking[j] in thinking;
        var i :| 0 <= i < |c| && c[i].ToolCall?;
        assert m.content[i - |thinking|].ToolCall?;
      }
    }
  }

  lemma {:induction false} FoldStopsRight(tl: seq<Slot>)
    requires AllStopRight(tl) && PendingIsThinking(tl)
    ensures forall k :: 0 <= k < |Fold(tl)| ==> StopsRight(Fold(tl)[k])
  {
    if tl != [] {
      var init, last := tl[..|tl| - 1], tl[|tl| - 1].entry;
      FoldStopsRight(init);
      if last.Msg? {
        TrailingIsThinking(init);
        AttachStopsRight(TrailingThinking(init), last.message);
      }
    }
  }

  /** An assistant message stops for tool use if and only if it holds a tool call. */
  lemma ToolUseIffCalls(rows: seq<Row>, calls: seq<Call>)
    ensures forall k :: 0 <= k < |Reconstruct(rows, calls)| ==> StopsRight(Reconstruct(rows, calls)[k])
  {
    hide Groups, Fold, StopsRight;
    GroupsStopRight(rows, calls, |rows| + 1);
    GroupsPending(rows, calls, |rows| + 1);
    FoldStopsRight(Layout(rows, calls));
  }

  // ---------------------------------------------------------------- thinking

  /** Where the run of pending thinking that ends just before slot b begins. */
  function RunStart(tl: seq<Slot>, b: nat): (a: nat)
    requires b <= |tl|
    ensures a <= b
    ensures forall i :: a <= i < b ==> tl[i].entry.PendingThinking?
    ensures a > 0 ==> tl[a - 1].entry.Msg?
  {
    if b > 0 && tl[b - 1].entry.PendingThinking? then RunStart(tl, b - 1) else b
  }

  function Run(tl: seq<Slot>, a: nat, b: nat): seq<Block>
    requires a <= b <= |tl| && forall i :: a <= i < b ==> tl[i].entry.PendingThinking?
  {
    seq(b - a, i requires 0 <= i < b - a => tl[a + i].entry.block)
  }

  /** The slot of the k-th message. */
  function NthMessage(tl: seq<Slot>, k: nat): (b: nat)
    requires k < |Messages(tl)|
    ensures b < |tl| && tl[b].entry.Msg? && |Messages(tl[..b])| == k && Messages(tl)[k] == tl[b].entry.message
  {
    var n := |tl| - 1;
    if tl[n].entry.Msg? && k == |Messages(tl[..n])| then n
    else
      var b := NthMessage(tl[..n], k);
      assert tl[..n][..b] == tl[..b];
      b
  }

  lemma {:induction false} RunStartSame(tl: seq<Slot>, tl': seq<Slot>, b: nat)
    requires b <= |tl| && b <= |tl'| && tl[..b] == tl'[..b]
    ensures RunStart(tl, b) == RunStart(tl', b)
    ensures Run(tl, RunStart(tl, b), b) == Run(tl', RunStart(tl', b), b)
  {
    assert forall i :: 0 <= i < b ==> tl[i] == tl[..b][i] == tl'[i];
    if b > 0 && tl[b - 1].entry.PendingThinking? {
      assert tl[..b - 1] == tl[..b][..b - 1] == tl'[..b - 1];
      RunStartSame(tl, tl', b - 1);
    }
  }

  lemma {:induction false} TrailingIsRun(tl: seq<Slot>)
    ensures TrailingThinking(tl) == Run(tl, RunStart(tl, |tl|), |tl|)
  {
    var n := |tl| - 1;
    if tl != [] && tl[n].entry.PendingThinking? {
      var init := tl[..n];
      TrailingIsRun(init);
      RunStartSame(tl, init, n);
      var a := RunStart(tl, n);
      assert Run(tl, a, n + 1) == Run(tl, a, n) + [tl[n].entry.block];
    }
  }

  lemma {:induction false} FoldAt(tl: seq<Slot>, k: nat)
    requires k < |Messages(tl)|
    ensures |Fold(tl)| == |Messages(tl)|
    ensures var b := NthMessage(tl, k);
            Fold(tl)[k] == Attach(Run(tl, RunStart(tl, b), b), tl[b].entry.message)
  {
    hide RunStart, Run, TrailingThinking, Attach;
    var n := |tl| - 1;
    var init := tl[..n];
    FoldLength(tl);
    FoldLength(init);
    if tl[n].entry.Msg? && k == |Messages(init)| {
      TrailingIsRun(init);
      RunStartSame(tl, init, n);
    } else {
      FoldAt(init, k);
      var b := NthMessage(init, k);
      assert init[..b] == tl[..b];
      RunStartSame(tl, init, b);
    }
  }

  lemma {:induction false} FoldLength(tl: seq<Slot>)
    ensures |Fold(tl)| == |Messages(tl)|
  {
    if tl != [] {
      FoldLength(tl[..|tl| - 1]);
    }
  }

  /**
   Each assistant message is prefixed by exactly the thinking blocks that lie between the previous
   message of the sorted timeline and it, in order; other messages get none.
   */
  lemma ThinkingAttached(rows: seq<Row>, calls: seq<Call>, k: nat)
    requires k < |Messages(Layout(rows, calls))|
    ensures var tl, out := Layout(rows, calls), Reconstruct(rows, calls);
            var b := NthMessage(tl, k);
            var a := RunStart(tl, b);
            && |out| == |Messages(tl)|
            && (tl[b].entry.message.Assistant? ==>
                  out[k] == tl[b].entry.message.(content := Run(tl, a, b) + tl[b].entry.message.content))
            && (!tl[b].entry.message.Assistant? ==> out[k] == tl[b].entry.message)
            && (a == 0 || tl[a - 1].entry.Msg?)
  {
    hide Groups;
    FoldAt(Layout(rows, calls), k);
  }

  /** The runs of two different messages do not overlap, so no thinking block is attached twice. */
  lemma ThinkingNotShared(tl: seq<Slot>, k: nat, l: nat)
    requires k < l < |Messages(tl)|
    ensures NthMessage(tl, k) < RunStart(tl, NthMessage(tl, l)) <= NthMessage(tl, l)
  {
    var b, c := NthMessage(tl, k), NthMessage(tl, l);
    if c <= b {
      MessagesShorter(tl, c, b);
    }
  }

  lemma {:induction false} MessagesShorter(tl: seq<Slot>, a: nat, b: nat)
    requires a <= b <= |tl|
    ensures |Messages(tl[..a])| <= |Messages(tl[..b])|
  {
    assert tl[..b] == tl[..a] + tl[a..b];
    MessagesConcat(tl[..a], tl[a..b]);
  }

  // ---------------------------------------------------------------- projection

  /** The blocks that are neither thinking nor tool calls. */
  function Plain(blocks: seq<Block>): seq<Block> {
    if blocks == [] then []
    else
      var last := blocks[|blocks| - 1];
      Plain(blocks[..|blocks| - 1]) + (if last.ToolCall? || last.Thinking? then [] else [last])
  }

  function ProjectOne(m: AgentMessage): seq<AgentMessage> {
    match m
    case User(_) => [m]
    case ToolResult(_, _, _) => []
    case Assistant(content, _) => if Plain(content) == [] then [] else [Assistant(Plain(content), Stop)]
  }

  /** The transcript without tool results, tool calls, thinking, and assistants left empty. */
  function Project(out: seq<AgentMessage>): seq<AgentMessage> {
    if out == [] then [] else Project(out[..|out| - 1]) + ProjectOne(out[|out| - 1])
  }

  /** What phase 1 makes of the rows, in their order. */
  function RowImages(rows: seq<Row>): seq<AgentMessage> {
    if rows == [] then []
    else
      var e := RowEntry(rows[|rows| - 1]);
      RowImages(rows[..|rows| - 1]) + (if e.Some? && e.value.Msg? then [e.value.message] else [])
  }

  lemma {:induction false} ProjectConcat(a: seq<AgentMessage>, b: seq<AgentMessage>)
    ensures Project(a + b) == Project(a) + Project(b)
  {
    if b == [] {
      assert a + b == a;
    } else {
      var n := |b| - 1;
      assert (a + b)[..|a + b| - 1] == a + b[..n];
      ProjectConcat(a, b[..n]);
    }
  }

  lemma {:induction false} PlainConcat(a: seq<Block>, b: seq<Block>)
    ensures Plain(a + b) == Plain(a) + Plain(b)
  {
    if b == [] {
      assert a + b == a;
    } else {
      var n := |b| - 1;
      assert (a + b)[..|a + b| - 1] == a + b[..n];
      PlainConcat(a, b[..n]);
    }
  }

  lemma {:induction false} NothingPlain(blocks: seq<Block>)
    requires forall b :: b in blocks ==> b.Thinking? || b.ToolCall?
    ensures Plain(blocks) == []
  {
    if blocks != [] {
      NothingPlain(blocks[..|blocks| - 1]);
      assert blocks[|blocks| - 1] in blocks;
    }
  }

  lemma OneProjected(m: AgentMessage)
    ensures Project([m]) == ProjectOne(m)
  {
    assert [m][..0] == [];
  }

  lemma AttachProjects(thinking: seq<Block>, m: AgentMessage)
    requires forall b :: b in thinking ==> b.Thinking?
    ensures ProjectOne(Attach(thinking, m)) == ProjectOne(m)
  {
    if m.Assistant? {
      PlainConcat(thinking, m.content);
      NothingPlain(thinking);
      assert [] + Plain(m.content) == Plain(m.content);
    }
  }

  lemma {:induction false} FoldProjects(tl: seq<Slot>)
    requires PendingIsThinking(tl)
    ensures Project(Fold(tl)) == Project(Messages(tl))
  {
    hide ProjectOne, Attach, TrailingThinking;
    if tl != [] {
      var init, last := tl[..|tl| - 1], tl[|tl| - 1].entry;
      FoldProjects(init);
      if last.Msg? {
        TrailingIsThinking(init);
        AttachProjects(TrailingThinking(init), last.message);
        LastOf(Fold(init), Attach(TrailingThinking(init), last.message));
        LastOf(Messages(init), last.message);
      }
    }
  }

  lemma {:induction false} AnswersProject(tl: seq<Slot>, calls: seq<Call>, indices: seq<nat>)
    requires forall k :: 0 <= k < |indices| ==> indices[k] < |calls|
    requires Answers(tl, calls, indices)
    ensures Project(Messages(tl)) == []
  {
    if tl != [] {
      var n := |tl| - 1;
      AnswersProject(tl[..n], calls, indices[..n]);
      LastOf(Messages(tl[..n]), ResultOf(calls[indices[n]]));
    }
  }

  lemma PlainText(text: string, calls: seq<Block>)
    requires forall b :: b in calls ==> b.ToolCall?
    ensures Plain([Text(text)] + calls) == [Text(text)]
    ensures Plain([Text(text)]) == [Text(text)]
  {
    PlainConcat([Text(text)], calls);
    NothingPlain(calls);
    assert [Text(text)][..0] == [];
  }

  /** What phase 1 keeps of a row survives projection unchanged. */
  lemma RowEntryPlain(m: Row)
    ensures var e := RowEntry(m);
            e.Some? && e.value.Msg? ==> ProjectOne(e.value.message) == [e.value.message]
  {
    PlainText(m.content, []);
    PlainText(m.planText, []);
  }

  lemma RowProjects(rows: seq<Row>, calls: seq<Call>, p: nat)
    ensures Project(Messages(RowSlots(rows, calls, p))) == if p < |rows| then RowImages([rows[p]]) else []
  {
    hide RowEntry, Placed, PlaceOf;
    var tl := RowSlots(rows, calls, p);
    if p < |rows| {
      assert [rows[p]][..0] == [];
      var e := RowEntry(rows[p]);
      RowEntryPlain(rows[p]);
      if MergedAt(rows, calls, p) != [] {
        MergedNeedsReply(rows, calls, p);
        PlainText(rows[p].content, CallBlocks(calls, MergedAt(rows, calls, p)));
      }
      if tl != [] {
        assert tl[..0] == [];
        assert Messages(tl) == if tl[0].entry.Msg? then [tl[0].entry.message] else [];
        if tl[0].entry.Msg? {
          OneProjected(tl[0].entry.message);
        }
      }
    }
  }

  lemma StandaloneProjects(rows: seq<Row>, calls: seq<Call>, p: nat)
    ensures Project(Messages(StandaloneSlots(rows, calls, p))) == []
  {
    hide Placed, ResultOf, PlaceOf;
    var indices := StandaloneAt(rows, calls, p);
    if indices != [] {
      var m := StandaloneMessage(calls, indices);
      var rest := StandaloneResults(calls, indices, p);
      StandaloneParts(rows, calls, p);
      NothingPlain(m.content);
      assert ProjectOne(m) == [];
      hide StandaloneSlots, Messages, Project, StandaloneResults, StandaloneMessage, StandaloneAt, Answers, CallsOf,
           IdsAt, ProjectOne;
      ProjectConcat([m], Messages(rest));
      OneProjected(m);
      AnswersProject(rest, calls, indices);
    }
  }

  lemma {:induction false} RowImagesNext(rows: seq<Row>, p: nat)
    requires p < |rows|
    ensures RowImages(rows[..p + 1]) == RowImages(rows[..p]) + RowImages([rows[p]])
  {
    assert rows[..p + 1][..p] == rows[..p];
    assert [rows[p]][..0] == [];
  }

  lemma GroupProjects(rows: seq<Row>, calls: seq<Call>, p: nat)
    ensures Project(Messages(Group(rows, calls, p))) == if p < |rows| then RowImages([rows[p]]) else []
  {
    hide RowSlots, StandaloneSlots, MergedSlots, Placed, RowEntry, Project, Messages, RowImages;
    var r, s, m := RowSlots(rows, calls, p), StandaloneSlots(rows, calls, p), MergedSlots(rows, calls, p);
    MessagesConcat(r + s, m);
    MessagesConcat(r, s);
    ProjectConcat(Messages(r) + Messages(s), Messages(m));
    ProjectConcat(Messages(r), Messages(s));
    RowProjects(rows, calls, p);
    StandaloneProjects(rows, calls, p);
    MergedAnswers(rows, calls, p);
    AnswersProject(m, calls, MergedAt(rows, calls, p));
  }

  lemma {:induction false} GroupsProject(rows: seq<Row>, calls: seq<Call>, count: nat)
    requires count <= |rows| + 1
    ensures Project(Messages(Groups(rows, calls, count)))
            == RowImages(rows[..if count <= |rows| then count else |rows|])
  {
    hide Group;
    if count > 0 {
      var p := count - 1;
      GroupsProject(rows, calls, p);
      MessagesConcat(Groups(rows, calls, p), Group(rows, calls, p));
      ProjectConcat(Messages(Groups(rows, calls, p)), Messages(Group(rows, calls, p)));
      GroupProjects(rows, calls, p);
      if p < |rows| {
        RowImagesNext(rows, p);
      }
    }
  }

  lemma MergedAnswers(rows: seq<Row>, calls: seq<Call>, p: nat)
    ensures Answers(MergedSlots(rows, calls, p), calls, MergedAt(rows, calls, p))
  {
    hide Placed, ResultOf;
  }

  /**
   Whatever the tool calls are, taking tool results, tool calls and thinking away again leaves
   exactly what phase 1 made of the rows, in their original order.
   */
  lemma ProjectionRecoversRows(rows: seq<Row>, calls: seq<Call>)
    ensures Project(Reconstruct(rows, calls)) == RowImages(rows)
  {
    hide Groups, Project, RowImages, Fold, Messages;
    GroupsPending(rows, calls, |rows| + 1);
    FoldProjects(Layout(rows, calls));
    GroupsProject(rows, calls, |rows| + 1);
    assert rows[..|rows|] == rows;
  }

  // ---------------------------------------------------------------- a mixed position

  /**
   One reply, and in its run one call that started before the reply was stored and one that started
   after it. The late call joins the reply; the early call follows in a message of its own, with its
   result, so the late call's result no longer comes right after the reply.
   */
  lemma EarlyAndLateCall(row: Row, early: Call, late: Call)
    requires IsReply(row, early) && IsReply(row, late) && Trim(row.content) != ""
    requires early.status == "completed" && late.status == "completed"
    requires early.startedAt < row.createdAt < late.startedAt
    ensures Reconstruct([row], [early, late]) ==
            [Assistant([Text(row.content), CallBlock(late)], ToolUse), Assistant([CallBlock(early)], ToolUse),
             ResultOf(early), ResultOf(late)]
    ensures PlaceOf([row], early) == Standalone(0) && PlaceOf([row], late) == Merged(0)
    ensures !Immediate(Reconstruct([row], [early, late]))
  {
    hide Reconstruct, Immediate, PlaceOf, Unmixed, ResultOf, Trim;
    EarlyStandsAlone(row, early);
    LateMerges(row, late);
    AdjacentIffUnmixed([row], [early, late]);
    MixedPair([row], [early, late], 1, 0, 0);
    MixedTranscript(row, early, late);
  }

  lemma MixedTranscript(row: Row, early: Call, late: Call)
    requires PlaceOf([row], early) == Standalone(0) && PlaceOf([row], late) == Merged(0)
    requires early.status == "completed" && late.status == "completed"
    ensures Reconstruct([row], [early, late]) ==
            [Assistant([Text(row.content), CallBlock(late)], ToolUse), Assistant([CallBlock(early)], ToolUse),
             ResultOf(early), ResultOf(late)]
  {
    hide PlaceOf, RowEntry, ResultOf, Group;
    var rows, calls := [row], [early, late];
    MixedGroup(row, early, late);
    EmptyGroup(row, early, late);
    assert Groups(rows, calls, 0) == [];
    assert Groups(rows, calls, 1) == Group(rows, calls, 0);
    assert Layout(rows, calls) == Group(rows, calls, 0);
    PlainFold(Layout(rows, calls));
  }

  lemma PlacedOfTwo(row: Row, early: Call, late: Call, w: Place)
    requires PlaceOf([row], early) == Standalone(0) && PlaceOf([row], late) == Merged(0)
    requires early.status == "completed" && late.status == "completed"
    ensures Placed([row], [early, late], w) == if w == Standalone(0) then [0] else if w == Merged(0) then [1] else []
  {
    hide PlaceOf;
    var calls := [early, late];
    assert calls[..1] == [early] && [early][..0] == [];
    assert Placed([row], [early], w) == if w == Standalone(0) then [0] else [];
  }

  lemma MixedGroup(row: Row, early: Call, late: Call)
    requires PlaceOf([row], early) == Standalone(0) && PlaceOf([row], late) == Merged(0)
    requires early.status == "completed" && late.status == "completed"
    ensures Group([row], [early, late], 0) ==
            [Slot(RowKey(0), Msg(Assistant([Text(row.content), CallBlock(late)], ToolUse))),
             Slot(StandaloneKey(0, 0), Msg(Assistant([CallBlock(early)], ToolUse))),
             Slot(StandaloneResultKey(0, 0), Msg(ResultOf(early))),
             Slot(MergedKey(0, 1), Msg(ResultOf(late)))]
  {
    hide PlaceOf, RowEntry, ResultOf, Placed;
    var rows, calls := [row], [early, late];
    PlacedOfTwo(row, early, late, Standalone(0));
    PlacedOfTwo(row, early, late, Merged(0));
    assert RowEntry(rows[0]) == Some(Msg(Assistant([Text(row.content)], Stop)));
    assert CallBlocks(calls, [1]) == [CallBlock(late)] && CallBlocks(calls, [0]) == [CallBlock(early)];
    assert [Text(row.content)] + [CallBlock(late)] == [Text(row.content), CallBlock(late)];
  }

  lemma EmptyGroup(row: Row, early: Call, late: Call)
    requires PlaceOf([row], early) == Standalone(0) && PlaceOf([row], late) == Merged(0)
    requires early.status == "completed" && late.status == "completed"
    ensures Group([row], [early, late], 1) == []
  {
    hide PlaceOf, RowEntry, Placed;
    PlacedOfTwo(row, early, late, Standalone(1));
    PlacedOfTwo(row, early, late, Merged(1));
  }

  /** A timeline without thinking folds to its messages, one by one. */
  lemma {:induction false} PlainFold(tl: seq<Slot>)
    requires forall k :: 0 <= k < |tl| ==> tl[k].entry.Msg?
    ensures |Fold(tl)| == |tl| && forall k :: 0 <= k < |tl| ==> Fold(tl)[k] == tl[k].entry.message
  {
    if tl != [] {
      var init, last := tl[..|tl| - 1], tl[|tl| - 1].entry.message;
      PlainFold(init);
      assert TrailingThinking(init) == [];
      assert last.Assistant? ==> [] + last.content == last.content;
    }
  }

  lemma MixedPair(rows: seq<Row>, calls: seq<Call>, i: nat, j: nat, p: nat)
    requires i < |calls| && j < |calls| && calls[i].status == "completed" && calls[j].status == "completed"
    requires PlaceOf(rows, calls[i]) == Merged(p) && PlaceOf(rows, calls[j]) == Standalone(p)
    ensures !Unmixed(rows, calls)
  {
    hide PlaceOf;
  }

  lemma EarlyStandsAlone(row: Row, call: Call)
    requires SameRun(row, call) && call.startedAt < row.createdAt
    ensures PlaceOf([row], call) == Standalone(0)
  {
    assert InsertPos([row], call) == 0;
    assert [row][..0] == [];
  }

  lemma LateMerges(row: Row, call: Call)
    requires IsReply(row, call) && Trim(row.content) != "" && row.createdAt < call.startedAt
    ensures PlaceOf([row], call) == Merged(0)
  {
    hide RowEntry;
    KeptReply(row);
    assert InsertPos([row], call) == 1;
    assert [row][..1] == [row];
    assert LastReply([row], call) == 0;
  }

  lemma KeptReply(row: Row)
    requires row.role == "assistant" && row.messageType == "plain_message" && Trim(row.content) != ""
    ensures RowEntry(row) == Some(Msg(Assistant([Text(row.content)], Stop)))
  {
    hide Trim;
    assert row.messageType[0] != "reasoning"[0];
  }
}
