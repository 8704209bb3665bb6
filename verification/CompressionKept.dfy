/**
 What a pass makes of every message, in plain terms: which branch it takes, what stands at the head
 afterwards, and how much of each kept tool result is left.
 */
module CompressionKept {
  import opened Prelude
  import opened Strings
  import opened Summary
  import opened SummaryBlock
  import opened Compression
  import opened CompressionRuns
  import History

  /** The texts of a result, one after another. */
  function AllText(blocks: seq<Block>): string {
    if blocks == [] then "" else (if blocks[0].Text? then blocks[0].text else "") + AllText(blocks[1..])
  }

  lemma {:induction false} TextTotalIs(blocks: seq<Block>)
    ensures TextTotal(blocks) == |AllText(blocks)|
  {
    if blocks != [] {
      TextTotalIs(blocks[1..]);
    }
  }

  /** A text longer than the limit keeps its first characters, and a note says how long all texts were. */
  predicate ShortenedTo(b: Block, b': Block, limit: nat, total: nat) {
    if b.Text? && |b.text| > limit then
      b' == History.Text(b.text[..limit] + "..." + "\n\n[Tool output truncated: " + Decimal(total) + " chars \U{2192} "
                         + Decimal(limit) + " chars]")
    else b' == b
  }

  /** Only the long texts of a tool result are shortened. */
  predicate HeldTo(m: Message, m': Message, limit: nat) {
    if m.ToolResult? then
      && m'.ToolResult? && m'.toolName == m.toolName && |m'.results| == |m.results|
      && forall i :: 0 <= i < |m.results| ==> ShortenedTo(m.results[i], m'.results[i], limit, |AllText(m.results)|)
    else m' == m
  }

  lemma BlockShortened(b: Block, total: nat, limit: nat)
    ensures ShortenedTo(b, TruncatedBlock(b, total, limit), limit, total)
  {
    hide Decimal;
    if b.Text? && |b.text| > limit {
      var note := "\n\n[Tool output truncated: " + Decimal(total) + " chars \U{2192} " + Decimal(limit) + " chars]";
      var head, open, arrow, close := b.text[..limit] + "...", "\n\n[Tool output truncated: ", " chars \U{2192} ",
          " chars]";
      assert head + note == head + open + Decimal(total) + arrow + Decimal(limit) + close;
    }
  }

  lemma {:induction false} LongTextIsWithin(blocks: seq<Block>, i: nat)
    requires i < |blocks| && blocks[i].Text?
    ensures |blocks[i].text| <= |AllText(blocks)|
  {
    if i > 0 {
      LongTextIsWithin(blocks[1..], i - 1);
    }
  }

  lemma MessageHeld(m: Message, aggressive: bool)
    ensures HeldTo(m, MaybeTruncate(m, aggressive), if aggressive then 800 else 3_200)
  {
    hide TruncatedBlock, ShortenedTo;
    if m.ToolResult? {
      var limit := if aggressive then 800 else 3_200;
      TextTotalIs(m.results);
      forall i | 0 <= i < |m.results|
        ensures ShortenedTo(m.results[i], MaybeTruncate(m, aggressive).results[i], limit, |AllText(m.results)|)
      {
        BlockShortened(m.results[i], |AllText(m.results)|, limit);
        if |AllText(m.results)| <= limit {
          ShortStays(m.results, i, limit);
        }
      }
    }
  }

  lemma ShortStays(blocks: seq<Block>, i: nat, limit: nat)
    requires i < |blocks| && |AllText(blocks)| <= limit
    ensures ShortenedTo(blocks[i], blocks[i], limit, |AllText(blocks)|)
  {
    if blocks[i].Text? {
      LongTextIsWithin(blocks, i);
    }
  }

  lemma AllHeld(messages: seq<Message>, cut: nat)
    requires cut <= |messages|
    ensures var kept := TruncateAll(messages[cut..]);
      forall i :: cut <= i < |messages| ==> HeldTo(messages[i], kept[i - cut], 3_200)
  {
    hide HeldTo, MaybeTruncate;
    forall i | cut <= i < |messages| ensures HeldTo(messages[i], TruncateAll(messages[cut..])[i - cut], 3_200) {
      MessageHeld(messages[i], false);
    }
  }

  lemma OldHeld(messages: seq<Message>)
    ensures forall i :: 0 <= i < |messages| ==>
              if i < |messages| * 2 / 3 then HeldTo(messages[i], TruncateOldResults(messages)[i], 800)
              else TruncateOldResults(messages)[i] == messages[i]
  {
    hide HeldTo, MaybeTruncate;
    forall i | 0 <= i < |messages| * 2 / 3 ensures HeldTo(messages[i], TruncateOldResults(messages)[i], 800) {
      MessageHeld(messages[i], true);
    }
  }

  // ---------------------------------------------------------------- the three ways a pass ends

  /** The messages from the cut on, behind one message with the text. */
  ghost predicate Replaced(messages: seq<Message>, after: seq<Message>, cut: nat, text: string) {
    && cut <= |messages| && |after| == 1 + |messages| - cut
    && after[0] == User(Plain(text))
    && forall i :: cut <= i < |messages| ==> HeldTo(messages[i], after[1 + i - cut], 3_200)
  }

  /** Nothing is cut away: the first two thirds of the messages are held to 800 characters, the rest are untouched. */
  ghost predicate OnlyOldShortened(messages: seq<Message>, after: seq<Message>) {
    && |after| == |messages|
    && forall i :: 0 <= i < |messages| ==>
         if i < |messages| * 2 / 3 then HeldTo(messages[i], after[i], 800) else after[i] == messages[i]
  }

  function Skeleton(details: string): string {
    "<context_summary>\n" + details + "</context_summary>"
  }

  lemma SkeletonIs(details: string)
    ensures DiscardSummary(details) == Skeleton(details)
  {
    assert START + "\n" == "<context_summary>\n";
  }

  lemma CompressedIs(messages: seq<Message>, cut: nat, text: string)
    requires cut <= |messages|
    ensures Replaced(messages, BuildCompressed(text, messages[cut..]), cut, text)
  {
    hide HeldTo, TruncateAll, MaybeTruncate;
    var kept, after := TruncateAll(messages[cut..]), BuildCompressed(text, messages[cut..]);
    assert after == [User(Plain(text))] + kept;
    hide BuildCompressed;
    AllHeld(messages, cut);
    forall i | cut <= i < |messages| ensures HeldTo(messages[i], after[1 + i - cut], 3_200) {
      assert after[1 + i - cut] == kept[i - cut];
    }
  }

  /**
   The truncation path: untouched within the budget, else only shortened where too little would be left, else
   cut.
   */
  lemma TruncationPathIs(messages: seq<Message>, x: Inputs)
    requires |x.tokens| == |messages|
    requires x.cancelled || messages == [] || CutPoint(messages, x.tokens, x.keep) == 0
    ensures var o, cut := AutoCompress(messages, x), CutPoint(messages, x.tokens, x.keep);
      if messages == [] || Sum(x.tokens) <= x.budget then o.messages == messages && !o.replaced
      else if cut == 0 || |messages| - cut < 4 then OnlyOldShortened(messages, o.messages) && !o.replaced
      else o.replaced && o.cut == cut && Replaced(messages, o.messages, cut, Skeleton(x.details))
  {
    hide CutPoint, TruncateOldResults, BuildCompressed, DiscardSummary, HeldTo, DetectPriorSummary;
    OldHeld(messages);
    SkeletonIs(x.details);
    CompressedIs(messages, CutPoint(messages, x.tokens, x.keep), DiscardSummary(x.details));
  }

  /**
   The summary path: with a usable summary the pass cuts where it was told to; without one it cuts where
   32,000 tokens are kept, if that is earlier, and a skeleton stands in.
   */
  lemma SummaryPathIs(messages: seq<Message>, x: Inputs)
    requires |x.tokens| == |messages| && Asks(messages, x)
    ensures var o, cut := AutoCompress(messages, x), CutPoint(messages, x.tokens, x.keep);
      var wider := CutPoint(messages, x.tokens, 32_000);
      && o.replaced
      && (o.summarised ==> o.cut == cut && o.messages != [] && o.messages[0].User? && o.messages[0].content.Plain?
                           && Replaced(messages, o.messages, cut, o.messages[0].content.text))
      && (!o.summarised ==>
            && o.cut == (if wider < cut then wider else cut)
            && Replaced(messages, o.messages, o.cut, Skeleton(x.details)))
  {
    hide CutPoint, BuildCompressed, DiscardSummary, HeldTo, DetectPriorSummary, NewSummary, Question, Replaced;
    SkeletonIs(x.details);
    var o, cut := AutoCompress(messages, x), CutPoint(messages, x.tokens, x.keep);
    var prior := DetectPriorSummary(messages[..cut]);
    var summary := NewSummary(prior, Question(prior, messages[..cut]), x.answer);
    if summary.Some? {
      CompressedIs(messages, cut, summary.value);
      HeadIs(summary.value, messages[cut..]);
    } else {
      CompressedIs(messages, o.cut, DiscardSummary(x.details));
    }
  }

  lemma HeadIs(text: string, recent: seq<Message>)
    ensures BuildCompressed(text, recent) != [] && BuildCompressed(text, recent)[0] == User(Plain(text))
  {
  }

  /**
   What a usable summary is: the one already at the head when there is nothing to add to it, else the model's
   answer, normalised.
   */
  lemma SummaryIs(messages: seq<Message>, x: Inputs)
    requires |x.tokens| == |messages| && Asks(messages, x)
    ensures var o, cut := AutoCompress(messages, x), CutPoint(messages, x.tokens, x.keep);
      var reused := cut == 1 && DetectPriorSummary(messages[..1]).Some?;
      && (o.summarised <==> reused || (x.answer.Some? && Trim(x.answer.value) != ""))
      && (o.summarised && reused ==> o.messages[0] == User(Plain(DetectPriorSummary(messages[..1]).value.0)))
      && (o.summarised && !reused ==>
            o.messages[0] == User(Plain(NormalizeCompactSummary(x.answer.value, None).value)))
  {
    hide CutPoint, DetectPriorSummary, DiscardSummary, Trim, Normalized, AppendInstructions, TruncateAll;
    var cut := CutPoint(messages, x.tokens, x.keep);
    DetectionIsOfHead(messages, cut);
  }
}
