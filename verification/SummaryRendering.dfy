/**
 What the summary model is given of each kind of message, letter by letter: the speaker's tag, then the
 text of each block in order, one to a line.
 */
module SummaryRendering {
  import opened Strings
  import opened Summary

  // ---------------------------------------------------------------- lines

  lemma {:induction false} JoinConcat(a: seq<string>, b: seq<string>, separator: string)
    requires a != [] && b != []
    ensures Join(a + b, separator) == Join(a, separator) + separator + Join(b, separator)
  {
    if |a| == 1 {
      assert (a + b)[1..] == b && (a + b)[0] == a[0];
    } else {
      assert (a + b)[1..] == a[1..] + b && (a + b)[0] == a[0];
      JoinConcat(a[1..], b, separator);
    }
  }

  /** Lines are joined in order by line breaks: none at the ends, one between two. */
  lemma LinesJoined(a: seq<string>, b: seq<string>, line: string)
    ensures Join([], "\n") == "" && Join([line], "\n") == line
    ensures a != [] && b != [] ==> Join(a + b, "\n") == Join(a, "\n") + "\n" + Join(b, "\n")
  {
    if a != [] && b != [] {
      JoinConcat(a, b, "\n");
    }
  }

  // ---------------------------------------------------------------- the lines of a message

  /** Later blocks come later, and each block contributes by itself. */
  lemma {:induction false} UserPartsConcat(a: seq<Block>, b: seq<Block>)
    ensures UserParts(a + b) == UserParts(a) + UserParts(b)
  {
    if a == [] {
      assert a + b == b;
    } else {
      assert (a + b)[1..] == a[1..] + b;
      UserPartsConcat(a[1..], b);
    }
  }

  lemma {:induction false} AssistantPartsConcat(a: seq<Block>, b: seq<Block>)
    ensures AssistantParts(a + b) == AssistantParts(a) + AssistantParts(b)
  {
    if a == [] {
      assert a + b == b;
    } else {
      assert (a + b)[1..] == a[1..] + b;
      AssistantPartsConcat(a[1..], b);
    }
  }

  lemma {:induction false} ResultPartsConcat(a: seq<Block>, b: seq<Block>)
    ensures ResultParts(a + b) == ResultParts(a) + ResultParts(b)
  {
    if a == [] {
      assert a + b == b;
    } else {
      assert (a + b)[1..] == a[1..] + b;
      ResultPartsConcat(a[1..], b);
    }
  }

  /** The trimmed text as one line, or no line. */
  function Line(prefix: string, text: string): seq<string> {
    if Trim(text) == "" then [] else [prefix + Trim(text)]
  }

  /** What one block of a user message contributes. */
  lemma UserLine(b: Block)
    ensures UserParts([b]) ==
            match b
            case Text(text) => Line("", text)
            case Image(_) => ["[image]"]
            case Thinking(_, _) => []
            case ToolCall(_, _, _) => []
  {
    hide Trim;
    assert [b][1..] == [];
    if b.Text? {
      Unprefixed(b.text);
    }
  }

  lemma Unprefixed(text: string)
    ensures Line("", text) == if Trim(text) == "" then [] else [Trim(text)]
  {
    hide Trim;
    assert "" + Trim(text) == Trim(text);
  }

  /** What one block of an assistant message contributes. */
  lemma AssistantLine(b: Block)
    ensures AssistantParts([b]) ==
            match b
            case Text(text) => Line("", text)
            case Image(_) => ["[image]"]
            case Thinking(thinking, _) => Line("[thinking] ", thinking)
            case ToolCall(_, name, input) => ["[tool_call] " + name + " " + CollapseWhitespace(input)]
  {
    hide Trim, CollapseWhitespace;
    assert [b][1..] == [];
    if b.Text? {
      Unprefixed(b.text);
    }
  }

  /** What one block of a tool result contributes. */
  lemma ResultLine(b: Block)
    ensures ResultParts([b]) == if b.Text? then Line("", b.text) else []
  {
    hide Trim;
    assert [b][1..] == [];
    if b.Text? {
      Unprefixed(b.text);
    }
  }

  // ---------------------------------------------------------------- one message

  /** The tag, a line break, the text, a blank line; nothing at all without a text. */
  function Tagged(tag: string, text: string): string {
    if text == "" then "" else tag + "\n" + text + "\n\n"
  }

  lemma OnePacked(m: Message, max: nat)
    requires |Chunk(m, TOOL_RESULT_CAP)| <= max
    ensures Packed([m], max) == Chunk(m, TOOL_RESULT_CAP)
  {
    hide Chunk;
    ChunkAtBudget(m, max);
    assert [m][..0] == [];
  }

  /** A user message, as text or as blocks. */
  lemma UserRendered(text: string, blocks: seq<Block>, max: nat)
    ensures var r := Tagged("[user]", Trim(text)); |r| <= max ==> Packed([User(Plain(text))], max) == r
    ensures var r := Tagged("[user]", Join(UserParts(blocks), "\n"));
      |r| <= max ==> Packed([User(Blocks(blocks))], max) == r
  {
    hide Packed, Join, UserParts, Trim;
    if |Tagged("[user]", Trim(text))| <= max {
      OnePacked(User(Plain(text)), max);
    }
    if |Tagged("[user]", Join(UserParts(blocks), "\n"))| <= max {
      OnePacked(User(Blocks(blocks)), max);
    }
  }

  lemma AssistantRendered(blocks: seq<Block>, max: nat)
    ensures var r := Tagged("[assistant]", Join(AssistantParts(blocks), "\n"));
      |r| <= max ==> Packed([Assistant(blocks)], max) == r
  {
    hide Packed, Join, AssistantParts;
    if |Tagged("[assistant]", Join(AssistantParts(blocks), "\n"))| <= max {
      OnePacked(Assistant(blocks), max);
    }
  }

  /** A tool result of at most 6,000 characters is given whole, a longer one loses its middle. */
  lemma ResultRendered(name: string, blocks: seq<Block>, max: nat)
    ensures var text := Join(ResultParts(blocks), "\n");
      var given := if |text| <= 6_000 then text else TruncateHeadTail(text, 6_000);
      var r := Tagged(if name == "" then "[tool_result]" else "[tool_result] " + name, given);
      |r| <= max ==> Packed([ToolResult(name, blocks)], max) == r
  {
    var text := Join(ResultParts(blocks), "\n");
    var given := if |text| <= 6_000 then text else TruncateHeadTail(text, 6_000);
    if |text| > 6_000 {
      CutToolResultIsNearCap(text, 6_000);
    }
    hide Packed, Join, ResultParts;
    assert TruncateHeadTail(text, 6_000) == given;
    hide TruncateHeadTail;
    if |Tagged(if name == "" then "[tool_result]" else "[tool_result] " + name, given)| <= max {
      OnePacked(ToolResult(name, blocks), max);
    }
  }

  /** How a text loses its middle: nothing, everything behind the head, or exactly the characters the note counts. */
  lemma MiddleCut(text: string, max: nat)
    ensures |text| <= max ==> TruncateHeadTail(text, max) == text
    ensures max <= 32 && |text| > max ==> TruncateHeadTail(text, max) == text[..max]
    ensures max > 32 && max < |text| < max + 20 ==>
              TruncateHeadTail(text, max) == text[..max - 30] + "\n[\U{2026} middle content omitted \U{2026}]\n"
    ensures max > 32 && |text| >= max + 20 ==>
              var head := (max - 30) * 2 / 3;
              var tail := max - 30 - head;
              TruncateHeadTail(text, max) ==
                text[..head] + ("\n[\U{2026} " + Decimal(|text| - (max - 30)) + " chars omitted \U{2026}]\n")
                + text[|text| - tail..]
  {
    hide Decimal;
    MarkerLengths();
  }

  /** How a rendering that does not fit keeps its tail. */
  lemma TailKept(text: string, max: nat)
    ensures |text| <= max ==> TruncateKeepTail(text, max) == text
    ensures max <= 30 && |text| > max ==> TruncateKeepTail(text, max) == text[|text| - max..]
    ensures max > 30 && |text| > max ==>
              TruncateKeepTail(text, max)
                == "[\U{2026}earlier content truncated\U{2026}]\n" + text[|text| - (max - 30)..]
  {
    MarkerLengths();
  }

  lemma CustomRendered(data: string, max: nat)
    ensures var r := Tagged("[custom]", CollapseWhitespace(data)); |r| <= max ==> Packed([Custom(data)], max) == r
  {
    hide Packed, CollapseWhitespace;
    if |Tagged("[custom]", CollapseWhitespace(data))| <= max {
      OnePacked(Custom(data), max);
    }
  }

  // ---------------------------------------------------------------- the whole history

  lemma FullOne(m: Message)
    ensures Full([m]) == Chunk(m, TOOL_RESULT_CAP)
  {
    hide Chunk;
    assert [m][..0] == [];
  }

  /** Of a history that fits, what is rendered is what is rendered of each message alone, in order. */
  lemma RenderedOneByOne(older: seq<Message>, last: Message, max: nat)
    requires |Full(older + [last])| <= max
    ensures Packed(older + [last], max) == Packed(older, max) + Packed([last], max)
  {
    hide Chunk, Full, Packed;
    var f := Chunk(last, TOOL_RESULT_CAP);
    FullConcat(older, [last]);
    FullOne(last);
    assert |Full(older + [last])| == |Full(older)| + |f|;
    OnePacked(last, max);
    FittingIsFull(older, max);
    FittingIsFull(older + [last], max);
  }

  lemma FittingIsFull(history: seq<Message>, max: nat)
    requires |Full(history)| <= max
    ensures Packed(history, max) == Full(history)
  {
    PackedLength(history, max);
  }
}
