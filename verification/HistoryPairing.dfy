/** Tool calls and tool results of a rebuilt transcript: conservation, pairing and adjacency. */
module HistoryPairing {
  import opened Prelude
  import opened Strings
  import opened History
  import opened HistoryTimeline

  // ---------------------------------------------------------------- counting calls and results

  function BlockIds(blocks: seq<Block>): multiset<string> {
    if blocks == [] then multiset{}
    else
      var last := blocks[|blocks| - 1];
      BlockIds(blocks[..|blocks| - 1]) + (if last.ToolCall? then multiset{last.id} else multiset{})
  }

  function CallsOf(m: AgentMessage): multiset<string> {
    if m.Assistant? then BlockIds(m.content) else multiset{}
  }

  function ResultsOf(m: AgentMessage): multiset<string> {
    if m.ToolResult? then multiset{m.callId} else multiset{}
  }

  /** The tool-call ids the messages hold, with multiplicity. */
  function CallIds(out: seq<AgentMessage>): multiset<string> {
    if out == [] then multiset{} else CallIds(out[..|out| - 1]) + CallsOf(out[|out| - 1])
  }

  /** The ids the messages answer, with multiplicity. */
  function ResultIds(out: seq<AgentMessage>): multiset<string> {
    if out == [] then multiset{} else ResultIds(out[..|out| - 1]) + ResultsOf(out[|out| - 1])
  }

  function CompletedIds(calls: seq<Call>): multiset<string> {
    if calls == [] then multiset{}
    else
      var last := calls[|calls| - 1];
      CompletedIds(calls[..|calls| - 1]) + (if last.status == "completed" then multiset{last.id} else multiset{})
  }

  /** No result before its call: every prefix answers at most what it holds. */
  ghost predicate Paired(out: seq<AgentMessage>) {
    forall k :: 0 <= k <= |out| ==> ResultIds(out[..k]) <= CallIds(out[..k])
  }

  /** Only results stand between calls and their results: any other message finds all calls so far answered. */
  ghost predicate Immediate(out: seq<AgentMessage>) {
    forall k :: 0 <= k < |out| && !out[k].ToolResult? ==> ResultIds(out[..k]) == CallIds(out[..k])
  }

  /** The two calls of a position, merged and standalone, are never both there. */
  ghost predicate Unmixed(rows: seq<Row>, calls: seq<Call>) {
    forall i, j ::
      && 0 <= i < |calls| && 0 <= j < |calls| && calls[i].status == "completed" && calls[j].status == "completed"
      && PlaceOf(rows, calls[i]).Merged? && PlaceOf(rows, calls[j]).Standalone?
      ==> PlaceOf(rows, calls[i]).p != PlaceOf(rows, calls[j]).q
  }

  // ---------------------------------------------------------------- a ledger of open calls

  /**
   Reading one message with `open` unanswered calls; None when it answers no open call or, if strict, comes too
   early.
   */
  function Post(m: AgentMessage, open: multiset<string>, strict: bool): Option<multiset<string>> {
    if m.ToolResult? then
      if m.callId in open then Some(open - multiset{m.callId}) else None
    else if strict && open != multiset{} then None
    else Some(open + CallsOf(m))
  }

  function Ledger(out: seq<AgentMessage>, open: multiset<string>, strict: bool): Option<multiset<string>> {
    if out == [] then Some(open)
    else
      var before := Ledger(out[..|out| - 1], open, strict);
      if before.None? then None else Post(out[|out| - 1], before.value, strict)
  }

  lemma Neutral(m: multiset<string>)
    ensures m + multiset{} == m && multiset{} + m == m
  {
  }

  lemma {:induction false} LedgerConcat(a: seq<AgentMessage>, b: seq<AgentMessage>, open: multiset<string>,
                                        strict: bool)
    ensures Ledger(a + b, open, strict)
         == (var mid := Ledger(a, open, strict); if mid.None? then None else Ledger(b, mid.value, strict))
  {
    if b == [] {
      assert a + b == a;
    } else {
      var n := |b| - 1;
      assert (a + b)[..|a + b| - 1] == a + b[..n];
      LedgerConcat(a, b[..n], open, strict);
    }
  }

  lemma PairedLast(out: seq<AgentMessage>)
    requires out != [] && Paired(out[..|out| - 1]) && ResultIds(out) <= CallIds(out)
    ensures Paired(out)
  {
    hide ResultIds, CallIds;
    var init := out[..|out| - 1];
    forall k | 0 <= k <= |out| ensures ResultIds(out[..k]) <= CallIds(out[..k]) {
      if k < |out| {
        assert out[..k] == init[..k];
      } else {
        assert out[..k] == out;
      }
    }
  }

  lemma ResultHoldsNoCalls(m: AgentMessage)
    requires m.ToolResult?
    ensures CallsOf(m) == multiset{}
  {
  }

  /** The ledger balances, and bears out the pairing. */
  lemma {:induction false} LedgerBalances(out: seq<AgentMessage>)
    requires Ledger(out, multiset{}, false).Some?
    ensures CallIds(out) == Ledger(out, multiset{}, false).value + ResultIds(out)
    ensures Paired(out)
  {
    if out != [] {
      var n := |out| - 1;
      LedgerBalances(out[..n]);
      var before := Ledger(out[..n], multiset{}, false).value;
      var m := out[n];
      assert Ledger(out, multiset{}, false) == Post(m, before, false);
      assert CallIds(out) == CallIds(out[..n]) + CallsOf(m) && ResultIds(out) == ResultIds(out[..n]) + ResultsOf(m);
      hide Ledger, Paired, CallIds, ResultIds, CallsOf;
      if m.ToolResult? {
        assert before == before - multiset{m.callId} + multiset{m.callId};
        assert CallsOf(m) == multiset{} by { ResultHoldsNoCalls(m); }
      }
      PairedLast(out);
    }
  }

  lemma LedgerLast(out: seq<AgentMessage>, strict: bool)
    requires out != []
    ensures var before := Ledger(out[..|out| - 1], multiset{}, strict);
            Ledger(out, multiset{}, strict) ==
              if before.None? then None else Post(out[|out| - 1], before.value, strict)
  {
    hide Post;
  }

  lemma NoneOpenIff(open: multiset<string>, results: multiset<string>)
    ensures open == multiset{} <==> open + results == results
  {
    assert open + results - results == open;
  }

  /** Strictly there is a ledger exactly when there is one and every message comes in time. */
  lemma {:induction false} LedgerStrict(out: seq<AgentMessage>)
    ensures Ledger(out, multiset{}, true).Some? <==> Ledger(out, multiset{}, false).Some? && Immediate(out)
    ensures Ledger(out, multiset{}, true).Some? ==> Ledger(out, multiset{}, true) == Ledger(out, multiset{}, false)
  {
    if out != [] {
      var init := out[..|out| - 1];
      LedgerStrict(init);
      ImmediateLast(out);
      LedgerLast(out, true);
      LedgerLast(out, false);
      hide Immediate, CallIds, ResultIds, Paired, Ledger, CallsOf;
      if Ledger(init, multiset{}, false).Some? {
        LedgerBalances(init);
        NoneOpenIff(Ledger(init, multiset{}, false).value, ResultIds(init));
      }
    }
  }

  lemma ImmediateLast(out: seq<AgentMessage>)
    requires out != []
    ensures var init := out[..|out| - 1];
            Immediate(out) <==> Immediate(init) && (!out[|out| - 1].ToolResult? ==> ResultIds(init) == CallIds(init))
  {
    var n := |out| - 1;
    var init := out[..n];
    assert forall k :: 0 <= k <= n ==> out[..k] == init[..k];
    assert init[..n] == init;
    if Immediate(out) {
      forall k | 0 <= k < n && !init[k].ToolResult? ensures ResultIds(init[..k]) == CallIds(init[..k]) {
        assert out[..k] == init[..k] && out[k] == init[k];
      }
      if !out[n].ToolResult? {
        assert out[..n] == init;
      }
    }
    if Immediate(init) && (!out[n].ToolResult? ==> ResultIds(init) == CallIds(init)) {
      forall k | 0 <= k < |out| && !out[k].ToolResult? ensures ResultIds(out[..k]) == CallIds(out[..k]) {
        if k < n {
          assert out[..k] == init[..k] && out[k] == init[k];
        }
      }
    }
  }

  // ---------------------------------------------------------------- from the timeline to the transcript

  /** The timeline's messages, without the thinking between them. */
  function Messages(tl: seq<Slot>): seq<AgentMessage> {
    if tl == [] then []
    else
      var last := tl[|tl| - 1].entry;
      if last.Msg? then Messages(tl[..|tl| - 1]) + [last.message] else Messages(tl[..|tl| - 1])
  }

  lemma {:induction false} MessagesConcat(a: seq<Slot>, b: seq<Slot>)
    ensures Messages(a + b) == Messages(a) + Messages(b)
  {
    if b == [] {
      assert a + b == a;
    } else {
      var n := |b| - 1;
      assert (a + b)[..|a + b| - 1] == a + b[..n];
      MessagesConcat(a, b[..n]);
    }
  }

  lemma {:induction false} BlockIdsConcat(a: seq<Block>, b: seq<Block>)
    ensures BlockIds(a + b) == BlockIds(a) + BlockIds(b)
  {
    if b == [] {
      assert a + b == a;
    } else {
      var n := |b| - 1;
      assert (a + b)[..|a + b| - 1] == a + b[..n];
      BlockIdsConcat(a, b[..n]);
    }
  }

  lemma {:induction false} ThinkingHasNoCalls(blocks: seq<Block>)
    requires forall b :: b in blocks ==> b.Thinking?
    ensures BlockIds(blocks) == multiset{}
  {
    if blocks != [] {
      var n := |blocks| - 1;
      ThinkingHasNoCalls(blocks[..n]);
      assert blocks[n] in blocks;
      assert BlockIds(blocks) == BlockIds(blocks[..n]) + multiset{};
    }
  }

  /** Pending entries hold thinking blocks only. */
  ghost predicate PendingIsThinking(tl: seq<Slot>) {
    forall a :: 0 <= a < |tl| && tl[a].entry.PendingThinking? ==> tl[a].entry.block.Thinking?
  }

  lemma {:induction false} TrailingIsThinking(tl: seq<Slot>)
    requires PendingIsThinking(tl)
    ensures forall b :: b in TrailingThinking(tl) ==> b.Thinking?
  {
    if tl != [] {
      TrailingIsThinking(tl[..|tl| - 1]);
    }
  }

  lemma AttachKeepsCalls(thinking: seq<Block>, m: AgentMessage)
    requires forall b :: b in thinking ==> b.Thinking?
    ensures CallsOf(Attach(thinking, m)) == CallsOf(m) && Attach(thinking, m).ToolResult? == m.ToolResult?
    ensures m.ToolResult? ==> Attach(thinking, m) == m
  {
    if m.Assistant? {
      BlockIdsConcat(thinking, m.content);
      ThinkingHasNoCalls(thinking);
    }
  }

  /** Attaching thinking changes neither the ledger nor the counts. */
  lemma {:induction false} FoldKeepsLedger(tl: seq<Slot>, strict: bool)
    requires PendingIsThinking(tl)
    ensures Ledger(Fold(tl), multiset{}, strict) == Ledger(Messages(tl), multiset{}, strict)
    ensures CallIds(Fold(tl)) == CallIds(Messages(tl))
  {
    if tl != [] {
      var init, last := tl[..|tl| - 1], tl[|tl| - 1].entry;
      FoldKeepsLedger(init, strict);
      if last.Msg? {
        TrailingIsThinking(init);
        AttachKeepsCalls(TrailingThinking(init), last.message);
        LastOf(Fold(init), Attach(TrailingThinking(init), last.message));
        LastOf(Messages(init), last.message);
      }
    }
  }

  lemma LastOf(init: seq<AgentMessage>, m: AgentMessage)
    ensures (init + [m])[..|init + [m]| - 1] == init && (init + [m])[|init + [m]| - 1] == m
  {
  }

  lemma RowMessageThinking(rows: seq<Row>, calls: seq<Call>, p: nat)
    ensures var e := RowMessage(rows, calls, p); e.Some? && e.value.PendingThinking? ==> e.value.block.Thinking?
  {
  }

  lemma GroupPending(rows: seq<Row>, calls: seq<Call>, p: nat)
    ensures PendingIsThinking(Group(rows, calls, p))
  {
    hide RowMessage, Placed, ResultOf;
    RowMessageThinking(rows, calls, p);
    var r, s, m := RowSlots(rows, calls, p), StandaloneSlots(rows, calls, p), MergedSlots(rows, calls, p);
    assert PendingIsThinking(s);
    assert PendingIsThinking(m);
  }

  lemma {:induction false} GroupsPending(rows: seq<Row>, calls: seq<Call>, count: nat)
    ensures PendingIsThinking(Groups(rows, calls, count))
  {
    hide Group;
    if count > 0 {
      var p := count - 1;
      GroupsPending(rows, calls, p);
      GroupPending(rows, calls, p);
      var a, b := Groups(rows, calls, p), Group(rows, calls, p);
      assert forall i :: 0 <= i < |a + b| ==> (a + b)[i] == if i < |a| then a[i] else b[i - |a|];
    }
  }

  // ---------------------------------------------------------------- one position

  function IdsAt(calls: seq<Call>, indices: seq<nat>): multiset<string>
    requires forall k :: 0 <= k < |indices| ==> indices[k] < |calls|
  {
    if indices == [] then multiset{}
    else IdsAt(calls, indices[..|indices| - 1]) + multiset{calls[indices[|indices| - 1]].id}
  }

  lemma {:induction false} CallBlockIds(calls: seq<Call>, indices: seq<nat>)
    requires forall k :: 0 <= k < |indices| ==> indices[k] < |calls|
    ensures BlockIds(CallBlocks(calls, indices)) == IdsAt(calls, indices)
  {
    if indices != [] {
      var n := |indices| - 1;
      assert CallBlocks(calls, indices)[..n] == CallBlocks(calls, indices[..n]);
      CallBlockIds(calls, indices[..n]);
    }
  }

  lemma IdsNonempty(calls: seq<Call>, indices: seq<nat>)
    requires forall k :: 0 <= k < |indices| ==> indices[k] < |calls|
    ensures IdsAt(calls, indices) == multiset{} <==> indices == []
  {
    if indices != [] {
      assert calls[indices[|indices| - 1]].id in IdsAt(calls, indices);
    }
  }

  /** Slots that answer the given calls, one after another. */
  ghost predicate Answers(tl: seq<Slot>, calls: seq<Call>, indices: seq<nat>)
    requires forall k :: 0 <= k < |indices| ==> indices[k] < |calls|
  {
    |tl| == |indices| && forall k :: 0 <= k < |tl| ==> tl[k].entry == Msg(ResultOf(calls[indices[k]]))
  }

  lemma {:induction false} AnswersLedger(tl: seq<Slot>, calls: seq<Call>, indices: seq<nat>, open: multiset<string>,
                                         strict: bool)
    requires forall k :: 0 <= k < |indices| ==> indices[k] < |calls|
    requires Answers(tl, calls, indices)
    ensures Ledger(Messages(tl), open + IdsAt(calls, indices), strict) == Some(open)
    ensures CallIds(Messages(tl)) == multiset{}
  {
    hide ResultOf;
    if tl != [] {
      var n := |tl| - 1;
      var id := calls[indices[n]].id;
      var more := open + multiset{id};
      assert open + IdsAt(calls, indices) == more + IdsAt(calls, indices[..n]);
      AnswersLedger(tl[..n], calls, indices[..n], more, strict);
      hide IdsAt;
      var earlier := Messages(tl[..n]);
      assert Messages(tl) == earlier + [ResultOf(calls[indices[n]])];
      hide Messages, Answers;
      LastOf(earlier, ResultOf(calls[indices[n]]));
      ResultAnswers(calls[indices[n]]);
      assert more - multiset{id} == open;
      Neutral(multiset{});
    } else {
      Neutral(open);
    }
  }

  lemma ResultAnswers(call: Call)
    ensures ResultOf(call).ToolResult? && ResultOf(call).callId == call.id
  {
  }

  function MergedAt(rows: seq<Row>, calls: seq<Call>, p: nat): seq<nat> {
    Placed(rows, calls, Merged(p))
  }

  function StandaloneAt(rows: seq<Row>, calls: seq<Call>, p: nat): seq<nat> {
    Placed(rows, calls, Standalone(p))
  }

  lemma MergedNeedsReply(rows: seq<Row>, calls: seq<Call>, p: nat)
    requires MergedAt(rows, calls, p) != []
    ensures p < |rows| && RowEntry(rows[p]) == Some(Msg(Assistant([Text(rows[p].content)], Stop)))
  {
    hide PlaceOf, RowEntry;
    assert PlaceOf(rows, calls[MergedAt(rows, calls, p)[0]]) == Merged(p);
  }

  lemma RowHasNoCalls(m: Row)
    ensures var e := RowEntry(m);
      e.Some? && e.value.Msg? ==> CallsOf(e.value.message) == multiset{} && !e.value.message.ToolResult?
  {
    hide Strings.Trim;
    var e := RowEntry(m);
    if e.Some? && e.value.Msg? && e.value.message.Assistant? {
      var content := e.value.message.content;
      assert |content| == 1 && content[..0] == [] && content[0].Text?;
      assert BlockIds(content) == BlockIds(content[..0]) + multiset{};
    }
  }

  /** The row's message carries exactly the calls merged into it. */
  lemma RowLedger(rows: seq<Row>, calls: seq<Call>, p: nat, strict: bool)
    ensures Ledger(Messages(RowSlots(rows, calls, p)), multiset{}, strict)
            == Some(IdsAt(calls, MergedAt(rows, calls, p)))
    ensures CallIds(Messages(RowSlots(rows, calls, p))) == IdsAt(calls, MergedAt(rows, calls, p))
  {
    hide RowEntry, Placed, PlaceOf;
    var merged := MergedAt(rows, calls, p);
    var tl := RowSlots(rows, calls, p);
    if merged != [] {
      MergedNeedsReply(rows, calls, p);
      var text := [Text(rows[p].content)];
      BlockIdsConcat(text, CallBlocks(calls, merged));
      CallBlockIds(calls, merged);
      assert text[..0] == [];
      assert BlockIds(text) == multiset{} + multiset{};
      Neutral(IdsAt(calls, merged));
      SingleSlot(tl, strict);
    } else if p < |rows| {
      RowHasNoCalls(rows[p]);
      if tl != [] {
        SingleSlot(tl, strict);
      }
    }
  }

  lemma SingleSlot(tl: seq<Slot>, strict: bool)
    requires |tl| == 1 && (tl[0].entry.Msg? ==> !tl[0].entry.message.ToolResult?)
    ensures var ids := if tl[0].entry.Msg? then CallsOf(tl[0].entry.message) else multiset{};
            Ledger(Messages(tl), multiset{}, strict) == Some(ids) && CallIds(Messages(tl)) == ids
  {
    assert tl[..0] == [];
    assert Messages(tl) == if tl[0].entry.Msg? then [tl[0].entry.message] else [];
    if tl[0].entry.Msg? {
      OneMessage(tl[0].entry.message, multiset{}, strict);
      Neutral(CallsOf(tl[0].entry.message));
    }
  }

  /** The standalone part opens its calls and answers them all, if it may open at all. */
  lemma StandaloneLedger(rows: seq<Row>, calls: seq<Call>, p: nat, open: multiset<string>, strict: bool)
    ensures Ledger(Messages(StandaloneSlots(rows, calls, p)), open, strict)
         == if strict && open != multiset{} && StandaloneAt(rows, calls, p) != [] then None else Some(open)
    ensures CallIds(Messages(StandaloneSlots(rows, calls, p))) == IdsAt(calls, StandaloneAt(rows, calls, p))
  {
    hide Placed, IdsAt, Ledger, CallIds, Messages, StandaloneMessage, StandaloneResults, Answers;
    var indices := StandaloneAt(rows, calls, p);
    if indices == [] {
      EmptyLedger(open, strict);
      IdsNonempty(calls, indices);
      assert Messages([]) == [] by { NoMessages(); }
    } else {
      hide StandaloneSlots, StandaloneAt;
      var m := StandaloneMessage(calls, indices);
      var rest := StandaloneResults(calls, indices, p);
      StandaloneParts(rows, calls, p);
      OneMessage(m, open, strict);
      LedgerConcat([m], Messages(rest), open, strict);
      AnswersLedger(rest, calls, indices, open, strict);
      CallIdsConcat([m], Messages(rest));
      Neutral(IdsAt(calls, indices));
    }
  }

  lemma NoMessages()
    ensures Messages([]) == []
  {
  }

  lemma StandaloneParts(rows: seq<Row>, calls: seq<Call>, p: nat)
    requires StandaloneAt(rows, calls, p) != []
    ensures var indices := StandaloneAt(rows, calls, p);
      var m := StandaloneMessage(calls, indices);
      var rest := StandaloneResults(calls, indices, p);
      && Messages(StandaloneSlots(rows, calls, p)) == [m] + Messages(rest)
      && m.Assistant? && CallsOf(m) == IdsAt(calls, indices) && Answers(rest, calls, indices)
  {
    hide Placed, ResultOf, CallBlocks, IdsAt, BlockIds, Messages;
    var indices := StandaloneAt(rows, calls, p);
    var m := StandaloneMessage(calls, indices);
    var head, rest := Slot(StandaloneKey(p, indices[0]), Msg(m)), StandaloneResults(calls, indices, p);
    MessagesConcat([head], rest);
    CallBlockIds(calls, indices);
    OneSlot(head);
  }

  lemma OneSlot(s: Slot)
    requires s.entry.Msg?
    ensures Messages([s]) == [s.entry.message]
  {
    assert [s][..0] == [];
  }

  lemma EmptyLedger(open: multiset<string>, strict: bool)
    ensures Ledger([], open, strict) == Some(open) && CallIds([]) == multiset{}
  {
  }

  lemma OneMessage(m: AgentMessage, open: multiset<string>, strict: bool)
    ensures Ledger([m], open, strict) == Post(m, open, strict) && CallIds([m]) == CallsOf(m)
  {
    assert [m][..0] == [];
    assert CallIds([m]) == CallIds([]) + CallsOf(m);
    Neutral(CallsOf(m));
  }

  lemma {:induction false} CallIdsConcat(a: seq<AgentMessage>, b: seq<AgentMessage>)
    ensures CallIds(a + b) == CallIds(a) + CallIds(b)
  {
    if b == [] {
      assert a + b == a;
    } else {
      var n := |b| - 1;
      assert (a + b)[..|a + b| - 1] == a + b[..n];
      CallIdsConcat(a, b[..n]);
    }
  }

  predicate MixedAt(rows: seq<Row>, calls: seq<Call>, p: nat) {
    MergedAt(rows, calls, p) != [] && StandaloneAt(rows, calls, p) != []
  }

  /** One position leaves no call open; strictly, unless both kinds of call are there. */
  lemma GroupLedger(rows: seq<Row>, calls: seq<Call>, p: nat, strict: bool)
    ensures Ledger(Messages(Group(rows, calls, p)), multiset{}, strict)
         == if strict && MixedAt(rows, calls, p) then None else Some(multiset{})
    ensures CallIds(Messages(Group(rows, calls, p)))
         == IdsAt(calls, MergedAt(rows, calls, p)) + IdsAt(calls, StandaloneAt(rows, calls, p))
  {
    hide Placed, ResultOf, RowSlots, StandaloneSlots, Ledger, CallIds, Messages, IdsAt;
    var r, s, m := RowSlots(rows, calls, p), StandaloneSlots(rows, calls, p), MergedSlots(rows, calls, p);
    var merged := MergedAt(rows, calls, p);
    var ids := IdsAt(calls, merged);
    MessagesConcat(r + s, m);
    MessagesConcat(r, s);
    RowLedger(rows, calls, p, strict);
    StandaloneLedger(rows, calls, p, ids, strict);
    AnswersLedger(m, calls, merged, multiset{}, strict);
    assert multiset{} + ids == ids;
    LedgerConcat(Messages(r), Messages(s), multiset{}, strict);
    LedgerConcat(Messages(r) + Messages(s), Messages(m), multiset{}, strict);
    CallIdsConcat(Messages(r), Messages(s));
    CallIdsConcat(Messages(r) + Messages(s), Messages(m));
    IdsNonempty(calls, merged);
  }

  // ---------------------------------------------------------------- all positions

  function PlacedIds(rows: seq<Row>, calls: seq<Call>, count: nat): multiset<string> {
    if count == 0 then multiset{}
    else
      PlacedIds(rows, calls, count - 1) + IdsAt(calls, MergedAt(rows, calls, count - 1))
      + IdsAt(calls, StandaloneAt(rows, calls, count - 1))
  }

  ghost predicate AnyMixed(rows: seq<Row>, calls: seq<Call>, count: nat) {
    exists p :: 0 <= p < count && MixedAt(rows, calls, p)
  }

  lemma AnyMixedNext(rows: seq<Row>, calls: seq<Call>, p: nat)
    ensures AnyMixed(rows, calls, p + 1) <==> AnyMixed(rows, calls, p) || MixedAt(rows, calls, p)
    ensures !AnyMixed(rows, calls, 0)
  {
    hide MixedAt;
  }

  lemma GroupsNext(rows: seq<Row>, calls: seq<Call>, p: nat)
    ensures Groups(rows, calls, p + 1) == Groups(rows, calls, p) + Group(rows, calls, p)
  {
    hide Group;
  }

  lemma {:induction false} GroupsLedger(rows: seq<Row>, calls: seq<Call>, count: nat, strict: bool)
    ensures Ledger(Messages(Groups(rows, calls, count)), multiset{}, strict)
         == if strict && AnyMixed(rows, calls, count) then None else Some(multiset{})
    ensures CallIds(Messages(Groups(rows, calls, count))) == PlacedIds(rows, calls, count)
  {
    hide Group, MixedAt, IdsAt, MergedAt, StandaloneAt, AnyMixed;
    if count == 0 {
      AnyMixedNext(rows, calls, 0);
    } else {
      var p := count - 1;
      hide Ledger, CallIds, Messages, Groups;
      GroupsLedger(rows, calls, p, strict);
      GroupLedger(rows, calls, p, strict);
      AnyMixedNext(rows, calls, p);
      GroupsNext(rows, calls, p);
      MessagesConcat(Groups(rows, calls, p), Group(rows, calls, p));
      LedgerConcat(Messages(Groups(rows, calls, p)), Messages(Group(rows, calls, p)), multiset{}, strict);
      CallIdsConcat(Messages(Groups(rows, calls, p)), Messages(Group(rows, calls, p)));
    }
  }

  function PlaceIndex(w: Place): nat {
    if w.Merged? then w.p else w.q
  }

  lemma {:induction false} IdsPrefix(calls: seq<Call>, j: nat, indices: seq<nat>)
    requires j < |calls| && forall k :: 0 <= k < |indices| ==> indices[k] < j
    ensures IdsAt(calls[..j + 1], indices) == IdsAt(calls[..j], indices)
  {
    if indices != [] {
      IdsPrefix(calls, j, indices[..|indices| - 1]);
    }
  }

  lemma IdsNext(rows: seq<Row>, calls: seq<Call>, j: nat, w: Place)
    requires j < |calls|
    ensures IdsAt(calls[..j + 1], Placed(rows, calls[..j + 1], w))
         == IdsAt(calls[..j], Placed(rows, calls[..j], w))
            + (if calls[j].status == "completed" && PlaceOf(rows, calls[j]) == w then multiset{calls[j].id}
               else multiset{})
  {
    hide Placed, PlaceOf;
    PlacedNext(rows, calls, j, w);
    var before := Placed(rows, calls[..j], w);
    IdsPrefix(calls, j, before);
    assert (before + [j])[..|before|] == before;
  }

  lemma SameAt(rows: seq<Row>, calls: seq<Call>, p: nat)
    ensures MergedAt(rows, calls, p) == Placed(rows, calls, Merged(p))
            && StandaloneAt(rows, calls, p) == Placed(rows, calls, Standalone(p))
  {
  }

  /** One more call adds its id at exactly one position. */
  lemma {:induction false} PlacedIdsNext(rows: seq<Row>, calls: seq<Call>, j: nat, count: nat)
    requires j < |calls|
    ensures PlacedIds(rows, calls[..j + 1], count)
         == PlacedIds(rows, calls[..j], count)
            + (if calls[j].status == "completed" && PlaceIndex(PlaceOf(rows, calls[j])) < count
               then multiset{calls[j].id} else multiset{})
  {
    hide Placed, PlaceOf, IdsAt;
    if count > 0 {
      var p := count - 1;
      var w := PlaceOf(rows, calls[j]);
      var id := if calls[j].status == "completed" then multiset{calls[j].id} else multiset{};
      PlacedIdsNext(rows, calls, j, p);
      IdsAtNext(rows, calls, j, p);
      hide PlacedIds;
      Regroup(PlacedIds(rows, calls[..j], p), if PlaceIndex(w) < p then id else multiset{},
              IdsAt(calls[..j], MergedAt(rows, calls[..j], p)), if w == Merged(p) then id else multiset{},
              IdsAt(calls[..j], StandaloneAt(rows, calls[..j], p)), if w == Standalone(p) then id else multiset{});
      OnePlace(w, p, id);
      PlacedIdsStep(rows, calls[..j], p);
      PlacedIdsStep(rows, calls[..j + 1], p);
    }
  }

  lemma PlacedIdsStep(rows: seq<Row>, calls: seq<Call>, p: nat)
    ensures PlacedIds(rows, calls, p + 1)
            == PlacedIds(rows, calls, p) + IdsAt(calls, MergedAt(rows, calls, p))
              + IdsAt(calls, StandaloneAt(rows, calls, p))
  {
    hide IdsAt, MergedAt, StandaloneAt;
  }

  /** The call's id at both places of position p. */
  lemma IdsAtNext(rows: seq<Row>, calls: seq<Call>, j: nat, p: nat)
    requires j < |calls|
    ensures var id := if calls[j].status == "completed" then multiset{calls[j].id} else multiset{};
      var w := PlaceOf(rows, calls[j]);
      && IdsAt(calls[..j + 1], MergedAt(rows, calls[..j + 1], p))
         == IdsAt(calls[..j], MergedAt(rows, calls[..j], p)) + (if w == Merged(p) then id else multiset{})
      && IdsAt(calls[..j + 1], StandaloneAt(rows, calls[..j + 1], p))
         == IdsAt(calls[..j], StandaloneAt(rows, calls[..j], p)) + (if w == Standalone(p) then id else multiset{})
  {
    hide Placed, PlaceOf, IdsAt, MergedAt, StandaloneAt;
    SameAt(rows, calls[..j + 1], p);
    SameAt(rows, calls[..j], p);
    IdsNext(rows, calls, j, Merged(p));
    IdsNext(rows, calls, j, Standalone(p));
  }

  /** Counting up to and including position p, the place is met exactly once. */
  lemma OnePlace(w: Place, p: nat, id: multiset<string>)
    ensures (if PlaceIndex(w) < p then id else multiset{}) + (if w == Merged(p) then id else multiset{})
            + (if w == Standalone(p) then id else multiset{})
         == if PlaceIndex(w) < p + 1 then id else multiset{}
  {
    Neutral(id);
    Neutral(multiset{});
  }

  lemma Regroup(a: multiset<string>, x: multiset<string>, b: multiset<string>, y: multiset<string>,
                c: multiset<string>, z: multiset<string>)
    ensures (a + x) + (b + y) + (c + z) == (a + b + c) + (x + y + z)
  {
  }

  lemma {:induction false} NothingPlaced(rows: seq<Row>, count: nat)
    ensures PlacedIds(rows, [], count) == multiset{}
  {
    if count > 0 {
      NothingPlaced(rows, count - 1);
    }
  }

  /** Every completed call is placed once. */
  lemma {:induction false} AllPlaced(rows: seq<Row>, calls: seq<Call>, j: nat)
    requires j <= |calls|
    ensures PlacedIds(rows, calls[..j], |rows| + 1) == CompletedIds(calls[..j])
  {
    hide PlaceOf, PlacedIds;
    if j == 0 {
      assert calls[..0] == [];
      NothingPlaced(rows, |rows| + 1);
    } else {
      AllPlaced(rows, calls, j - 1);
      PlacedIdsNext(rows, calls, j - 1, |rows| + 1);
      assert calls[..j][..j - 1] == calls[..j - 1];
    }
  }

  // ---------------------------------------------------------------- main results

  /**
   Conservation and pairing, for all rows and calls: the transcript holds each completed tool call
   once, answers each once, and answers none before the message that holds it.
   */
  lemma CallsConservedAndPaired(rows: seq<Row>, calls: seq<Call>)
    ensures var out := Reconstruct(rows, calls);
            CallIds(out) == ResultIds(out) == CompletedIds(calls) && Paired(out)
  {
    hide Ledger, CallIds, ResultIds, CompletedIds, Fold, Messages, Groups, PlacedIds, Paired, Immediate;
    var tl := Layout(rows, calls);
    GroupsPending(rows, calls, |rows| + 1);
    GroupsLedger(rows, calls, |rows| + 1, false);
    FoldKeepsLedger(tl, false);
    LedgerBalances(Fold(tl));
    assert calls[..|calls|] == calls;
    AllPlaced(rows, calls, |calls|);
    assert multiset{} + ResultIds(Fold(tl)) == ResultIds(Fold(tl));
  }

  lemma UnmixedIffNoneMixed(rows: seq<Row>, calls: seq<Call>)
    ensures Unmixed(rows, calls) <==> forall p :: 0 <= p < |rows| + 1 ==> !MixedAt(rows, calls, p)
  {
    hide Placed, PlaceOf;
    if !Unmixed(rows, calls) {
      var i, j :|
        && 0 <= i < |calls| && 0 <= j < |calls| && calls[i].status == "completed" && calls[j].status == "completed"
        && PlaceOf(rows, calls[i]).Merged? && PlaceOf(rows, calls[j]).Standalone?
        && PlaceOf(rows, calls[i]).p == PlaceOf(rows, calls[j]).q;
      var p := PlaceOf(rows, calls[i]).p;
      assert i in MergedAt(rows, calls, p) && j in StandaloneAt(rows, calls, p);
      assert MixedAt(rows, calls, p);
    }
    forall p | 0 <= p < |rows| + 1 && MixedAt(rows, calls, p) ensures !Unmixed(rows, calls) {
      var i, j := MergedAt(rows, calls, p)[0], StandaloneAt(rows, calls, p)[0];
      assert PlaceOf(rows, calls[i]) == Merged(p) && PlaceOf(rows, calls[j]) == Standalone(p);
    }
  }

  /**
   Adjacency: only results ever stand between an assistant's calls and their results if and only if
   no completed call stands alone at a position another completed call is merged into.
   */
  lemma AdjacentIffUnmixed(rows: seq<Row>, calls: seq<Call>)
    ensures Immediate(Reconstruct(rows, calls)) <==> Unmixed(rows, calls)
  {
    hide Ledger, CallIds, ResultIds, Fold, Messages, Groups, PlacedIds, Paired, Immediate, Unmixed, MixedAt;
    var tl := Layout(rows, calls);
    GroupsPending(rows, calls, |rows| + 1);
    GroupsLedger(rows, calls, |rows| + 1, false);
    GroupsLedger(rows, calls, |rows| + 1, true);
    FoldKeepsLedger(tl, false);
    FoldKeepsLedger(tl, true);
    LedgerStrict(Fold(tl));
    UnmixedIffNoneMixed(rows, calls);
  }
}
