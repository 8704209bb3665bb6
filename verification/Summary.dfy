/**
 Rendering a conversation for the summary model under a budget of characters: messages are packed
 from the newest back, an oversized tool result loses its middle, and the message that no longer fits
 keeps its tail. The main results give the exact length of what is rendered and exactly which messages
 it holds in full.
 */
module Summary {
  import opened Prelude
  import opened Strings
  import History

  type Block = History.Block

  datatype UserContent = Plain(text: string) | Blocks(blocks: seq<Block>)

  datatype Message =
    | User(content: UserContent)
    | Assistant(blocks: seq<Block>)
    | ToolResult(toolName: string, results: seq<Block>)
    | Custom(data: string)

  const TOOL_RESULT_CAP := 6_000

  // ---------------------------------------------------------------- truncation

  const MIDDLE_MARKER := "\n[\U{2026} middle content omitted \U{2026}]\n"
  const TAIL_MARKER := "[\U{2026}earlier content truncated\U{2026}]\n"

  function GapMarker(omitted: nat): string {
    "\n[\U{2026} " + Decimal(omitted) + " chars omitted \U{2026}]\n"
  }

  /** The first two thirds of the budget that is left for content. */
  function HeadBudget(max: nat): nat
    requires max >= |MIDDLE_MARKER|
  {
    (max - |MIDDLE_MARKER|) * 2 / 3
  }

  function TruncateHeadTail(text: string, max: nat): string {
    if |text| <= max then text
    else if max <= |MIDDLE_MARKER| + 2 then text[..max]
    else
      var budget := max - |MIDDLE_MARKER|;
      var head := HeadBudget(max);
      var tail := budget - head;
      var omitted := |text| - head - tail;
      if omitted < 50 then text[..budget] + MIDDLE_MARKER
      else text[..head] + GapMarker(omitted) + text[|text| - tail..]
  }

  function TruncateKeepTail(text: string, max: nat): string {
    if |text| <= max then text
    else if max <= |TAIL_MARKER| then text[|text| - max..]
    else TAIL_MARKER + text[|text| - (max - |TAIL_MARKER|)..]
  }

  lemma MarkerLengths()
    ensures |MIDDLE_MARKER| == 30 && |TAIL_MARKER| == 30
  {
  }

  lemma GapMarkerLength(omitted: nat)
    ensures |GapMarker(omitted)| == 22 + |Decimal(omitted)|
  {
    assert |"\n[\U{2026} "| == 4 && |" chars omitted \U{2026}]\n"| == 18;
  }

  function Power10(k: nat): (p: nat)
    ensures p >= 1
  {
    if k == 0 then 1 else 10 * Power10(k - 1)
  }

  lemma {:induction false} DigitsIff(n: nat, k: nat)
    requires k >= 1
    ensures |Decimal(n)| <= k <==> n < Power10(k)
  {
    if n >= 10 && k > 1 {
      DigitsIff(n / 10, k - 1);
      assert n / 10 < Power10(k - 1) <==> n < 10 * Power10(k - 1);
    } else if n < 10 {
      assert Power10(k) >= 10;
    } else {
      assert Power10(1) == 10 * Power10(0);
      assert |Decimal(n / 10)| >= 1;
    }
  }

  /** A text that does not fit is cut in one of three ways. */
  predicate Gapped(text: string, max: nat) {
    |text| > max > |MIDDLE_MARKER| + 2 && |text| - (max - |MIDDLE_MARKER|) >= 50
  }

  /**
   With a gap, a prefix and a disjoint suffix survive around a marker that says exactly how many
   characters between them are gone.
   */
  lemma GapKeepsHeadAndTail(text: string, max: nat) returns (head: string, middle: string, tail: string)
    requires Gapped(text, max)
    ensures text == head + middle + tail
    ensures TruncateHeadTail(text, max) == head + GapMarker(|middle|) + tail
    ensures |head| + |tail| == max - 30 && |head| == (max - 30) * 2 / 3 && |middle| >= 50
  {
    MarkerLengths();
    var h := HeadBudget(max);
    var t := max - 30 - h;
    head, middle, tail := text[..h], text[h..|text| - t], text[|text| - t..];
    assert text == head + middle + tail;
  }

  /** The exact length of the result. */
  lemma HeadTailLength(text: string, max: nat)
    ensures |TruncateHeadTail(text, max)| ==
      if |text| <= max then |text|
      else if Gapped(text, max) then max - 8 + |Decimal(|text| - max + 30)|
      else max
  {
    MarkerLengths();
    hide Decimal;
    if Gapped(text, max) {
      var head, middle, tail := GapKeepsHeadAndTail(text, max);
      assert |head| + |middle| + |tail| == |text|;
      GapMarkerLength(|middle|);
    }
  }

  /** The exact condition: the result exceeds the budget if and only if at least 10^8 characters are left out. */
  lemma HeadTailFitsIff(text: string, max: nat)
    ensures |TruncateHeadTail(text, max)| <= max <==> !(Gapped(text, max) && |text| - max + 30 >= 100_000_000)
  {
    HeadTailLength(text, max);
    hide Decimal, TruncateHeadTail;
    MarkerLengths();
    if Gapped(text, max) {
      DigitsIff(|text| - max + 30, 8);
      EightDigits();
    }
  }

  lemma EightDigits()
    ensures Power10(8) == 100_000_000
  {
    assert Power10(4) == 10_000;
    assert Power10(6) == 100 * Power10(4);
  }

  /** How much of a text that does not fit is kept. */
  function KeptTail(max: nat): nat {
    if max <= 30 then max else max - 30
  }

  /** Keeping the tail uses the budget exactly, and what it keeps is the end of the text. */
  lemma KeepTailIsTail(text: string, max: nat)
    ensures |TruncateKeepTail(text, max)| == Min(|text|, max)
    ensures |text| > max ==>
      TruncateKeepTail(text, max)[max - KeptTail(max)..] == text[|text| - KeptTail(max)..]
  {
    MarkerLengths();
  }

  // ---------------------------------------------------------------- the text of a message

  function UserParts(blocks: seq<Block>): seq<string> {
    if blocks == [] then []
    else
      (match blocks[0]
       case Text(text) => if Trim(text) == "" then [] else [Trim(text)]
       case Image(_) => ["[image]"]
       case _ => []) + UserParts(blocks[1..])
  }

  function AssistantParts(blocks: seq<Block>): seq<string> {
    if blocks == [] then []
    else
      (match blocks[0]
       case Text(text) => if Trim(text) == "" then [] else [Trim(text)]
       case Thinking(thinking, _) => if Trim(thinking) == "" then [] else ["[thinking] " + Trim(thinking)]
       case ToolCall(_, name, input) => ["[tool_call] " + name + " " + CollapseWhitespace(input)]
       case Image(_) => ["[image]"]) + AssistantParts(blocks[1..])
  }

  function ResultParts(blocks: seq<Block>): seq<string> {
    if blocks == [] then []
    else
      (match blocks[0]
       case Text(text) => if Trim(text) == "" then [] else [Trim(text)]
       case _ => []) + ResultParts(blocks[1..])
  }

  function MessageText(m: Message): string {
    match m
    case User(Plain(text)) => Trim(text)
    case User(Blocks(blocks)) => Join(UserParts(blocks), "\n")
    case Assistant(blocks) => Join(AssistantParts(blocks), "\n")
    case ToolResult(_, results) => Join(ResultParts(results), "\n")
    case Custom(data) => CollapseWhitespace(data)
  }

  function Header(m: Message): (h: string)
    ensures |h| >= 6
  {
    match m
    case User(_) => "[user]"
    case Assistant(_) => "[assistant]"
    case ToolResult(name, _) => if name == "" then "[tool_result]" else "[tool_result] " + name
    case Custom(_) => "[custom]"
  }

  /** What one message contributes when tool results are cut to `cap` characters; nothing for an empty one. */
  function Chunk(m: Message, cap: nat): string {
    var text := MessageText(m);
    if text == "" then ""
    else Header(m) + "\n" + (if m.ToolResult? then TruncateHeadTail(text, cap) else text) + "\n\n"
  }

  /** The whole history, oldest first, with tool results at their cap. */
  function Full(history: seq<Message>): string {
    if history == [] then ""
    else Full(history[..|history| - 1]) + Chunk(history[|history| - 1], TOOL_RESULT_CAP)
  }

  // ---------------------------------------------------------------- the packer

  /** The packing loop as a recursion from the newest message back. */
  function Packed(history: seq<Message>, remaining: nat): string {
    if history == [] || remaining == 0 then ""
    else
      var older, c := history[..|history| - 1], Chunk(history[|history| - 1], Min(TOOL_RESULT_CAP, remaining));
      if |c| <= remaining then Packed(older, remaining - |c|) + c
      else TruncateKeepTail(c, remaining)
  }

  function Concat(chunks: seq<string>): string {
    if chunks == [] then "" else chunks[0] + Concat(chunks[1..])
  }

  function Reversed(chunks: seq<string>): seq<string> {
    if chunks == [] then [] else Reversed(chunks[1..]) + [chunks[0]]
  }

  lemma {:induction false} ConcatLast(chunks: seq<string>, c: string)
    ensures Concat(chunks + [c]) == Concat(chunks) + c
  {
    if chunks == [] {
      assert [c][1..] == [] && [c][0] == c && c + "" == c && "" + c == c;
      assert chunks + [c] == [c];
    } else {
      assert (chunks + [c])[1..] == chunks[1..] + [c];
      ConcatLast(chunks[1..], c);
    }
  }

  /** Pushing a chunk puts it in front of what was packed so far. */
  lemma {:induction false} PushedInFront(chunks: seq<string>, c: string)
    ensures Concat(Reversed(chunks + [c])) == c + Concat(Reversed(chunks))
  {
    if chunks == [] {
      assert chunks + [c] == [c] && [c][1..] == [] && Reversed([c]) == [] + [c];
      assert [c][1..] == [] && c + "" == c;
    } else {
      assert (chunks + [c])[1..] == chunks[1..] + [c];
      PushedInFront(chunks[1..], c);
      ConcatLast(Reversed(chunks[1..] + [c]), chunks[0]);
      ConcatLast(Reversed(chunks[1..]), chunks[0]);
      assert c + (Concat(Reversed(chunks[1..])) + chunks[0]) == (c + Concat(Reversed(chunks[1..]))) + chunks[0];
    }
  }

  method RenderCompactSummaryHistory(history: seq<Message>, max: nat) returns (r: string)
    ensures r == Packed(history, max)
  {
    hide Chunk, TruncateKeepTail;
    var chunksReversed: seq<string> := [];
    var remaining: nat := max;
    var n := |history|;
    assert history[..n] == history;
    while n > 0 && remaining > 0
      invariant 0 <= n <= |history|
      invariant Packed(history[..n], remaining) + Concat(Reversed(chunksReversed)) == Packed(history, max)
    {
      n := n - 1;
      var m := history[n];
      assert history[..n + 1][..n] == history[..n];
      var chunk := Chunk(m, Min(TOOL_RESULT_CAP, remaining));
      ghost var packed := Concat(Reversed(chunksReversed));
      if chunk == "" {
        assert Packed(history[..n], remaining) + chunk == Packed(history[..n], remaining);
      } else if |chunk| <= remaining {
        PushedInFront(chunksReversed, chunk);
        assert (Packed(history[..n], remaining - |chunk|) + chunk) + packed
            == Packed(history[..n], remaining - |chunk|) + (chunk + packed);
        remaining := remaining - |chunk|;
        chunksReversed := chunksReversed + [chunk];
      } else {
        var truncated := TruncateKeepTail(chunk, remaining);
        if truncated != "" {
          PushedInFront(chunksReversed, truncated);
          chunksReversed := chunksReversed + [truncated];
        }
        return Concat(Reversed(chunksReversed));
      }
    }
    r := Concat(Reversed(chunksReversed));
    assert "" + r == r;
  }

  // ---------------------------------------------------------------- what is packed

  lemma CutToolResultIsNearCap(text: string, max: nat)
    requires |text| > max
    ensures |TruncateHeadTail(text, max)| >= max - 6
  {
    HeadTailLength(text, max);
    if Gapped(text, max) {
      DigitsIff(|text| - max + 30, 1);
      assert Power10(1) == 10 * Power10(0);
    }
    hide TruncateHeadTail, Decimal;
  }

  /**
   Cutting a tool result to the room that is left never makes room: a message fits at that cut exactly when it
   fits at the full cap.
   */
  lemma ChunkAtBudget(m: Message, room: nat)
    ensures var f := Chunk(m, TOOL_RESULT_CAP);
      if |f| <= room then Chunk(m, Min(TOOL_RESULT_CAP, room)) == f else |Chunk(m, Min(TOOL_RESULT_CAP, room))| > room
  {
    var text := MessageText(m);
    if m.ToolResult? && room < TOOL_RESULT_CAP && |text| > room {
      assert |Header(m)| >= 13;
      CutToolResultIsNearCap(text, room);
      if |text| > TOOL_RESULT_CAP {
        CutToolResultIsNearCap(text, TOOL_RESULT_CAP);
      }
      hide TruncateHeadTail, MessageText, Header;
    }
    hide MessageText, TruncateHeadTail;
  }

  lemma {:induction false} FullConcat(a: seq<Message>, b: seq<Message>)
    ensures Full(a + b) == Full(a) + Full(b)
  {
    hide Chunk;
    if b == [] {
      assert a + b == a && Full(a) + "" == Full(a);
    } else {
      var n := |b| - 1;
      assert (a + b)[..|a + b| - 1] == a + b[..n];
      FullConcat(a, b[..n]);
      var c := Chunk(b[n], TOOL_RESULT_CAP);
      assert (Full(a) + Full(b[..n])) + c == Full(a) + (Full(b[..n]) + c);
    }
  }

  /** Where the newest messages that fit in full begin. */
  function LongestFit(history: seq<Message>, room: nat): (k: nat)
    ensures k <= |history|
  {
    if history == [] then 0
    else
      var f := |Chunk(history[|history| - 1], TOOL_RESULT_CAP)|;
      if f <= room then LongestFit(history[..|history| - 1], room - f) else |history|
  }

  /** It is the longest suffix whose full rendering fits. */
  lemma {:induction false} LongestFitIs(history: seq<Message>, room: nat)
    ensures var k := LongestFit(history, room);
      && |Full(history[k..])| <= room
      && forall j :: 0 <= j < k ==> |Full(history[j..])| > room
  {
    hide Chunk;
    if history == [] {
    } else {
      var n := |history| - 1;
      var older, last := history[..n], history[n];
      var f := Chunk(last, TOOL_RESULT_CAP);
      assert Full([last]) == f by { assert [last][..0] == [] && "" + f == f; }
      assert Full([]) == "";
      hide Full;
      if |f| <= room {
        LongestFitIs(older, room - |f|);
        var k := LongestFit(older, room - |f|);
        forall j | 0 <= j <= k ensures |Full(history[j..])| == |Full(older[j..])| + |f| {
          assert history[j..] == older[j..] + [last];
          FullConcat(older[j..], [last]);
        }
      } else {
        assert history[|history|..] == [];
        forall j | 0 <= j < |history| ensures |Full(history[j..])| > room {
          assert history[j..] == older[j..] + [last];
          FullConcat(older[j..], [last]);
        }
      }
    }
  }

  /** The part of the result in front of the messages rendered in full. */
  function Remnant(history: seq<Message>, k: nat, room: nat): string
    requires k <= |history|
  {
    if k == 0 then "" else TruncateKeepTail(Chunk(history[k - 1], Min(TOOL_RESULT_CAP, room)), room)
  }

  /** The message before the suffix does not fit in the room that is left. */
  predicate Overflows(history: seq<Message>, k: nat, room: nat)
    requires k <= |history|
  {
    k > 0 ==> |Chunk(history[k - 1], Min(TOOL_RESULT_CAP, room))| > room
  }

  /**
   The rendering is every message from k on in full, behind what the remaining room holds of the tail
   of the one message before them; nothing older.
   */
  ghost predicate PackedFrom(history: seq<Message>, k: nat, max: nat) {
    && k <= |history| && |Full(history[k..])| <= max
    && Packed(history, max) == Remnant(history, k, max - |Full(history[k..])|) + Full(history[k..])
    && Overflows(history, k, max - |Full(history[k..])|)
  }

  lemma FullOneMore(older: seq<Message>, last: Message, k: nat)
    requires k <= |older|
    ensures Full((older + [last])[k..]) == Full(older[k..]) + Chunk(last, TOOL_RESULT_CAP)
  {
    hide Chunk;
    assert Full([last]) == Chunk(last, TOOL_RESULT_CAP) by { assert [last][..0] == []; }
    assert (older + [last])[k..] == older[k..] + [last];
    FullConcat(older[k..], [last]);
  }

  lemma PackedStep(older: seq<Message>, last: Message, max: nat)
    requires |Chunk(last, TOOL_RESULT_CAP)| <= max
    ensures var f := Chunk(last, TOOL_RESULT_CAP); Packed(older + [last], max) == Packed(older, max - |f|) + f
  {
    hide Chunk, TruncateKeepTail;
    ChunkAtBudget(last, max);
    assert (older + [last])[..|older|] == older;
  }

  lemma PackedOneMore(older: seq<Message>, last: Message, k: nat, max: nat)
    requires var f := Chunk(last, TOOL_RESULT_CAP); |f| <= max && PackedFrom(older, k, max - |f|)
    ensures PackedFrom(older + [last], k, max)
  {
    hide Chunk, Full, Packed, Remnant;
    var history := older + [last];
    var f := Chunk(last, TOOL_RESULT_CAP);
    var kept := Full(older[k..]);
    var room := max - |f| - |kept|;
    FullOneMore(older, last, k);
    PackedStep(older, last, max);
    SameBefore(older, last, k, room);
    Regrouped(Remnant(older, k, room), kept, f);
    assert |kept + f| == |kept| + |f|;
  }

  lemma SameBefore(older: seq<Message>, last: Message, k: nat, room: nat)
    requires k <= |older|
    ensures Remnant(older + [last], k, room) == Remnant(older, k, room)
    ensures Overflows(older + [last], k, room) == Overflows(older, k, room)
  {
    hide Chunk, TruncateKeepTail;
    if k > 0 {
      assert (older + [last])[k - 1] == older[k - 1];
    }
  }

  lemma Regrouped(a: string, b: string, c: string)
    ensures (a + b) + c == a + (b + c)
  {
  }

  lemma PackedNoMore(history: seq<Message>, max: nat)
    requires history != [] && |Chunk(history[|history| - 1], TOOL_RESULT_CAP)| > max
    ensures PackedFrom(history, |history|, max)
  {
    hide Chunk, TruncateKeepTail;
    var k := |history|;
    assert history[k..] == [];
    ChunkAtBudget(history[k - 1], max);
    assert Remnant(history, k, max) + "" == Remnant(history, k, max);
    if max == 0 {
      EmptyRemnant(history, k);
    }
  }

  lemma EmptyIsPacked(max: nat)
    ensures PackedFrom([], 0, max)
  {
    var none: seq<Message> := [];
    assert none[0..] == none;
  }

  /** The main result: what is rendered in full is exactly the longest newest suffix that fits. */
  lemma {:induction false} PackedIsLongestSuffix(history: seq<Message>, max: nat)
    ensures PackedFrom(history, LongestFit(history, max), max)
    ensures forall j :: 0 <= j < LongestFit(history, max) ==> |Full(history[j..])| > max
  {
    hide Chunk, TruncateKeepTail, Full;
    LongestFitIs(history, max);
    if history == [] {
      assert history[0..] == history;
      EmptyIsPacked(max);
    } else {
      var older, last := history[..|history| - 1], history[|history| - 1];
      var f := Chunk(last, TOOL_RESULT_CAP);
      if |f| <= max {
        PackedIsLongestSuffix(older, max - |f|);
        hide PackedFrom;
        PackedOneMore(older, last, LongestFit(older, max - |f|), max);
        assert older + [last] == history;
      } else {
        PackedNoMore(history, max);
      }
    }
  }

  lemma EmptyRemnant(history: seq<Message>, k: nat)
    requires k <= |history|
    ensures Remnant(history, k, 0) == ""
  {
    if k > 0 {
      KeepTailIsTail(Chunk(history[k - 1], 0), 0);
    }
  }

  /** The budget is used exactly: the rendering is as long as the full one, or as long as the budget. */
  lemma PackedLength(history: seq<Message>, max: nat)
    ensures |Packed(history, max)| == Min(|Full(history)|, max)
    ensures |Full(history)| <= max ==> Packed(history, max) == Full(history)
  {
    hide Packed, Full, Chunk, LongestFit, TruncateKeepTail;
    PackedIsLongestSuffix(history, max);
    var k := LongestFit(history, max);
    assert history[0..] == history;
    var kept := Full(history[k..]);
    if k == 0 {
      assert "" + kept == kept;
    } else {
      var room := max - |kept|;
      KeepTailIsTail(Chunk(history[k - 1], Min(TOOL_RESULT_CAP, room)), room);
      assert |Full(history[0..])| > max;
    }
  }
}
