/**
 One auto-compression pass: where the conversation is cut, what the summary model is asked, and what
 the conversation is replaced by. `AutoCompress` says what a pass does; the class `CompressedAgent`
 holds the agent's messages and the markers and replaces them in place.
 */
module Compression {
  import opened Prelude
  import opened Strings
  import opened Summary
  import opened SummaryBlock
  import History

  // ---------------------------------------------------------------- the cut point

  predicate HasToolCalls(m: Message) {
    m.Assistant? && exists i :: 0 <= i < |m.blocks| && m.blocks[i].ToolCall?
  }

  /** The walk back over tool exchanges does not stop here: a tool result, or an assistant its results follow. */
  predicate MovesOn(messages: seq<Message>, cut: nat) {
    && 0 < cut < |messages|
    && (messages[cut].ToolResult?
        || (HasToolCalls(messages[cut]) && cut + 1 < |messages| && messages[cut + 1].ToolResult?))
  }

  function Sum(tokens: seq<nat>): nat {
    if tokens == [] then 0 else tokens[0] + Sum(tokens[1..])
  }

  /** Where the newest messages first reach the tokens to keep. */
  function ReachedAt(tokens: seq<nat>, keep: nat, i: nat): (r: nat)
    requires i <= |tokens|
    ensures r <= i
  {
    if i == 0 then 0
    else if Sum(tokens[i - 1..]) >= keep then i - 1
    else ReachedAt(tokens, keep, i - 1)
  }

  function Settled(messages: seq<Message>, cut: nat): (r: nat)
    ensures r <= cut && !MovesOn(messages, r)
    ensures forall j :: r < j <= cut ==> MovesOn(messages, j)
  {
    if MovesOn(messages, cut) then Settled(messages, cut - 1) else cut
  }

  function CutPoint(messages: seq<Message>, tokens: seq<nat>, keep: nat): (cut: nat)
    requires |tokens| == |messages|
    ensures cut <= |messages|
  {
    Settled(messages, ReachedAt(tokens, keep, |tokens|))
  }

  method FindCutPoint(messages: seq<Message>, tokens: seq<nat>, keep: nat) returns (cut: nat)
    requires |tokens| == |messages|
    ensures cut == CutPoint(messages, tokens, keep)
  {
    var accumulated := 0;
    cut := |messages|;
    var i := |messages|;
    while i > 0
      invariant 0 <= i <= |messages|
      invariant accumulated == Sum(tokens[i..])
      invariant cut == i
      invariant ReachedAt(tokens, keep, |tokens|) == ReachedAt(tokens, keep, i)
    {
      i := i - 1;
      assert tokens[i..][1..] == tokens[i + 1..];
      accumulated := accumulated + tokens[i];
      cut := i;
      if accumulated >= keep {
        break;
      }
    }
    assert cut == ReachedAt(tokens, keep, |tokens|);
    while cut > 0 && cut < |messages|
      invariant cut <= |messages|
      invariant Settled(messages, cut) == CutPoint(messages, tokens, keep)
      decreases cut
    {
      if messages[cut].ToolResult? {
        cut := cut - 1;
      } else if messages[cut].Assistant? && HasToolCalls(messages[cut]) {
        if cut + 1 < |messages| {
          if messages[cut + 1].ToolResult? {
            cut := cut - 1;
            continue;
          }
        }
        break;
      } else {
        break;
      }
    }
  }

  lemma {:induction false} ReachedAtIs(tokens: seq<nat>, keep: nat, i: nat)
    requires i <= |tokens|
    ensures var r := ReachedAt(tokens, keep, i);
      && (i > 0 ==> r < i) && (r > 0 ==> Sum(tokens[r..]) >= keep)
      && forall j :: r < j < i ==> Sum(tokens[j..]) < keep
  {
    hide Sum;
    if i > 0 && Sum(tokens[i - 1..]) < keep {
      ReachedAtIs(tokens, keep, i - 1);
    }
  }

  lemma {:induction false} ReachedAtMonotone(tokens: seq<nat>, less: nat, more: nat, i: nat)
    requires i <= |tokens| && less <= more
    ensures ReachedAt(tokens, more, i) <= ReachedAt(tokens, less, i)
  {
    if i > 0 && Sum(tokens[i - 1..]) < more && Sum(tokens[i - 1..]) < less {
      ReachedAtMonotone(tokens, less, more, i - 1);
    }
  }

  lemma SettledMonotone(messages: seq<Message>, a: nat, b: nat)
    requires a <= b
    ensures Settled(messages, a) <= Settled(messages, b)
  {
    assert !MovesOn(messages, Settled(messages, a));
  }

  /** Keeping more tokens never cuts later. */
  lemma CutPointMonotone(messages: seq<Message>, tokens: seq<nat>, less: nat, more: nat)
    requires |tokens| == |messages| && less <= more
    ensures CutPoint(messages, tokens, more) <= CutPoint(messages, tokens, less)
  {
    ReachedAtMonotone(tokens, less, more, |tokens|);
    SettledMonotone(messages, ReachedAt(tokens, more, |tokens|), ReachedAt(tokens, less, |tokens|));
  }

  /**
   What the cut promises: some message is always kept; unless everything is, the kept part reaches the
   tokens asked for and begins neither with a tool result nor with an assistant that called a tool whose
   result comes next; and every later place that would still keep enough begins with one of the two.
   */
  lemma CutPointKeepsExchanges(messages: seq<Message>, tokens: seq<nat>, keep: nat)
    requires |tokens| == |messages|
    ensures var cut := CutPoint(messages, tokens, keep);
      && (messages != [] ==> cut < |messages|)
      && (cut > 0 ==>
            && Sum(tokens[cut..]) >= keep
            && !messages[cut].ToolResult?
            && !(Calling(messages[cut]) && cut + 1 < |messages| && messages[cut + 1].ToolResult?))
      && forall j :: cut < j < |messages| && Sum(tokens[j..]) >= keep ==>
           || messages[j].ToolResult?
           || (Calling(messages[j]) && j + 1 < |messages| && messages[j + 1].ToolResult?)
  {
    hide CutPoint, MovesOn, Calling, Sum;
    CutPointSettles(messages, tokens, keep);
    var cut := CutPoint(messages, tokens, keep);
    if cut > 0 {
      MovesOnIs(messages, cut);
    }
    forall j | cut < j < |messages| && Sum(tokens[j..]) >= keep
      ensures messages[j].ToolResult?
              || (Calling(messages[j]) && j + 1 < |messages| && messages[j + 1].ToolResult?)
    {
      assert MovesOn(messages, j);
      MovesOnIs(messages, j);
    }
  }

  lemma CutPointSettles(messages: seq<Message>, tokens: seq<nat>, keep: nat)
    requires |tokens| == |messages|
    ensures var cut := CutPoint(messages, tokens, keep);
      && (messages != [] ==> cut < |messages|)
      && (cut > 0 ==> Sum(tokens[cut..]) >= keep)
      && !MovesOn(messages, cut)
      && forall j :: cut < j < |messages| && Sum(tokens[j..]) >= keep ==> MovesOn(messages, j)
  {
    var raw := ReachedAt(tokens, keep, |tokens|);
    var cut := CutPoint(messages, tokens, keep);
    ReachedAtIs(tokens, keep, |tokens|);
    if cut > 0 {
      SumGrows(tokens, cut, raw);
    }
  }

  lemma MovesOnIs(messages: seq<Message>, j: nat)
    requires 0 < j < |messages|
    ensures MovesOn(messages, j) <==>
            messages[j].ToolResult? || (Calling(messages[j]) && j + 1 < |messages| && messages[j + 1].ToolResult?)
  {
    if HasToolCalls(messages[j]) {
      var i :| 0 <= i < |messages[j].blocks| && messages[j].blocks[i].ToolCall?;
      assert messages[j].blocks[i] in messages[j].blocks;
    }
  }

  /** An assistant message one of whose blocks is a tool call. */
  predicate Calling(m: Message) {
    m.Assistant? && exists b :: b in m.blocks && b.ToolCall?
  }

  lemma {:induction false} SumGrows(tokens: seq<nat>, a: nat, b: nat)
    requires a <= b <= |tokens|
    ensures Sum(tokens[b..]) <= Sum(tokens[a..])
    decreases b - a
  {
    if a < b {
      assert tokens[a..][1..] == tokens[a + 1..];
      SumGrows(tokens, a + 1, b);
    }
  }

  // ---------------------------------------------------------------- truncated tool results

  const OLD_TOOL_RESULT_MAX_CHARS := 800

  function TruncateText(text: string, max: nat): string {
    if |text| > max then text[..max] + "..." else text
  }

  function TextTotal(blocks: seq<Block>): nat {
    if blocks == [] then 0 else (if blocks[0].Text? then |blocks[0].text| else 0) + TextTotal(blocks[1..])
  }

  function TruncationNote(total: nat, max: nat): string {
    "\n\n[Tool output truncated: " + Decimal(total) + " chars \U{2192} " + Decimal(max) + " chars]"
  }

  predicate Long(b: Block, max: nat) {
    b.Text? && |b.text| > max
  }

  function TruncatedBlock(b: Block, total: nat, max: nat): Block {
    if Long(b, max) then History.Text(TruncateText(b.text, max) + TruncationNote(total, max)) else b
  }

  function TruncatedBlocks(blocks: seq<Block>, total: nat, max: nat): (r: seq<Block>)
    ensures |r| == |blocks|
  {
    seq(|blocks|, i requires 0 <= i < |blocks| => TruncatedBlock(blocks[i], total, max))
  }

  function ResultLimit(aggressive: bool): nat {
    if aggressive then OLD_TOOL_RESULT_MAX_CHARS else OLD_TOOL_RESULT_MAX_CHARS * 4
  }

  function MaybeTruncate(m: Message, aggressive: bool): Message {
    var max := ResultLimit(aggressive);
    if m.ToolResult? && TextTotal(m.results) > max then
      m.(results := TruncatedBlocks(m.results, TextTotal(m.results), max))
    else m
  }

  function TruncateAll(messages: seq<Message>): (r: seq<Message>)
    ensures |r| == |messages| && forall i :: 0 <= i < |r| ==> r[i] == MaybeTruncate(messages[i], false)
  {
    if messages == [] then [] else [MaybeTruncate(messages[0], false)] + TruncateAll(messages[1..])
  }

  function BuildCompressed(summary: string, recent: seq<Message>): seq<Message> {
    [User(Plain(summary))] + TruncateAll(recent)
  }

  function TruncateOldResults(messages: seq<Message>): (r: seq<Message>)
    ensures |r| == |messages|
  {
    seq(|messages|, i requires 0 <= i < |messages| =>
        if i < |messages| * 2 / 3 then MaybeTruncate(messages[i], true) else messages[i])
  }

  /** How many text blocks are over the limit, and how long they are together. */
  function LongCount(blocks: seq<Block>, max: nat): nat {
    if blocks == [] then 0 else (if Long(blocks[0], max) then 1 else 0) + LongCount(blocks[1..], max)
  }

  function LongTotal(blocks: seq<Block>, max: nat): nat {
    if blocks == [] then 0 else (if Long(blocks[0], max) then |blocks[0].text| else 0) + LongTotal(blocks[1..], max)
  }

  /** The length of every block that is cut. */
  function CutLength(total: nat, max: nat): nat {
    max + 3 + |TruncationNote(total, max)|
  }

  lemma {:induction false} DecimalInjective(a: nat, b: nat)
    requires Decimal(a) == Decimal(b)
    ensures a == b
  {
    var digits := "0123456789";
    var x, y := Decimal(a), Decimal(b);
    assert x[|x| - 1] == digits[a % 10] && y[|y| - 1] == digits[b % 10];
    if a >= 10 && b >= 10 {
      assert x[..|x| - 1] == Decimal(a / 10) && y[..|y| - 1] == Decimal(b / 10);
      DecimalInjective(a / 10, b / 10);
    }
  }

  lemma NoteInjective(a: nat, b: nat, max: nat)
    requires TruncationNote(a, max) == TruncationNote(b, max)
    ensures a == b
  {
    hide Decimal;
    var n := |"\n\n[Tool output truncated: "|;
    var x, y := TruncationNote(a, max), TruncationNote(b, max);
    assert x[n..n + |Decimal(a)|] == Decimal(a);
    assert y[n..n + |Decimal(b)|] == Decimal(b);
    DecimalInjective(a, b);
  }

  lemma {:induction false} TotalOfTruncated(blocks: seq<Block>, total: nat, max: nat)
    ensures TextTotal(TruncatedBlocks(blocks, total, max)) + LongTotal(blocks, max) ==
            TextTotal(blocks) + LongCount(blocks, max) * CutLength(total, max)
  {
    if blocks != [] {
      var n, rest := CutLength(total, max), blocks[1..];
      TotalOfTruncated(rest, total, max);
      assert TruncatedBlocks(blocks, total, max)[1..] == TruncatedBlocks(rest, total, max);
      LengthOfTruncated(blocks[0], total, max);
      hide TruncationNote, TruncatedBlock, CutLength, Long;
      assert (1 + LongCount(rest, max)) * n == n + LongCount(rest, max) * n;
    }
  }

  lemma LengthOfTruncated(b: Block, total: nat, max: nat)
    ensures TruncatedBlock(b, total, max).Text? <==> b.Text?
    ensures b.Text? ==>
              |TruncatedBlock(b, total, max).text| == if Long(b, max) then CutLength(total, max) else |b.text|
  {
    hide TruncationNote;
  }

  /** A second cut keeps the same characters and writes its own note. */
  lemma TruncatedTwice(blocks: seq<Block>, first: nat, second: nat, max: nat)
    ensures TruncatedBlocks(TruncatedBlocks(blocks, first, max), second, max) == TruncatedBlocks(blocks, second, max)
  {
    hide TruncationNote;
    forall i | 0 <= i < |blocks|
      ensures TruncatedBlock(TruncatedBlock(blocks[i], first, max), second, max)
              == TruncatedBlock(blocks[i], second, max)
    {
      if Long(blocks[i], max) {
        var cut := TruncatedBlock(blocks[i], first, max).text;
        assert cut[..max] == blocks[i].text[..max];
      }
    }
  }

  lemma {:induction false} LongIsWithin(blocks: seq<Block>, max: nat)
    ensures LongCount(blocks, max) * max <= LongTotal(blocks, max) <= TextTotal(blocks)
    ensures LongCount(blocks, max) == 0 ==> LongTotal(blocks, max) == 0
    ensures LongCount(blocks, max) > 0 ==> TextTotal(blocks) > max
  {
    if blocks != [] {
      var rest := LongCount(blocks[1..], max);
      LongIsWithin(blocks[1..], max);
      assert (1 + rest) * max == max + rest * max;
    }
  }

  lemma {:induction false} NoneLongIff(blocks: seq<Block>, max: nat)
    ensures LongCount(blocks, max) == 0 <==> forall i :: 0 <= i < |blocks| ==> !Long(blocks[i], max)
  {
    hide Long;
    if blocks != [] {
      NoneLongIff(blocks[1..], max);
      assert forall i :: 1 <= i < |blocks| ==> blocks[i] == blocks[1..][i - 1];
    }
  }

  lemma TruncatedAlikeIff(blocks: seq<Block>, first: nat, second: nat, max: nat)
    ensures TruncatedBlocks(blocks, first, max) == TruncatedBlocks(blocks, second, max)
            <==> first == second || LongCount(blocks, max) == 0
  {
    hide TruncationNote;
    NoneLongIff(blocks, max);
    if LongCount(blocks, max) > 0 && TruncatedBlocks(blocks, first, max) == TruncatedBlocks(blocks, second, max) {
      var i :| 0 <= i < |blocks| && Long(blocks[i], max);
      var x, y := TruncatedBlocks(blocks, first, max)[i].text, TruncatedBlocks(blocks, second, max)[i].text;
      assert x[max + 3..] == TruncationNote(first, max) && y[max + 3..] == TruncationNote(second, max);
      NoteInjective(first, second, max);
    }
  }

  /** A cut block is itself over the limit. */
  lemma TotalStaysLong(blocks: seq<Block>, total: nat, max: nat)
    requires LongCount(blocks, max) > 0
    ensures TextTotal(TruncatedBlocks(blocks, total, max)) > max
  {
    hide TruncationNote;
    NoneLongIff(blocks, max);
    var i :| 0 <= i < |blocks| && Long(blocks[i], max);
    assert Long(TruncatedBlocks(blocks, total, max)[i], max);
    NoneLongIff(TruncatedBlocks(blocks, total, max), max);
    LongIsWithin(TruncatedBlocks(blocks, total, max), max);
  }

  /**
   A tool result with a text over the limit is cut by the first pass over it and again by the next: the
   same characters stay, but the note now gives the size of the cut text, not of the output.
   */
  lemma TruncationRepeats(m: Message, aggressive: bool)
    requires m.ToolResult? && LongCount(m.results, ResultLimit(aggressive)) > 0
    ensures var once := MaybeTruncate(m, aggressive);
      var max := ResultLimit(aggressive);
      && once == m.(results := TruncatedBlocks(m.results, TextTotal(m.results), max))
      && MaybeTruncate(once, aggressive) == m.(results := TruncatedBlocks(m.results, TextTotal(once.results), max))
  {
    hide TruncatedBlocks, LongTotal, LongCount, TextTotal, ResultLimit;
    var max := ResultLimit(aggressive);
    var blocks, total := m.results, TextTotal(m.results);
    var once := TruncatedBlocks(blocks, total, max);
    LongIsWithin(blocks, max);
    TotalStaysLong(blocks, total, max);
    TruncatedTwice(blocks, total, TextTotal(once), max);
  }

  /**
   The exact condition, for every message: the second cut changes nothing if and only if the texts over the
   limit are together exactly as long as what the first makes of them.
   */
  lemma TruncationSettlesIff(m: Message, aggressive: bool)
    ensures var once := MaybeTruncate(m, aggressive);
      var max := ResultLimit(aggressive);
      MaybeTruncate(once, aggressive) == once <==>
      !m.ToolResult? || LongTotal(m.results, max) == LongCount(m.results, max) * CutLength(TextTotal(m.results), max)
  {
    hide TruncatedBlocks, LongTotal, LongCount, TextTotal, CutLength, ResultLimit;
    if m.ToolResult? {
      var max := ResultLimit(aggressive);
      var blocks, total := m.results, TextTotal(m.results);
      var once := TruncatedBlocks(blocks, total, max);
      LongIsWithin(blocks, max);
      TotalOfTruncated(blocks, total, max);
      TruncatedAlikeIff(blocks, total, TextTotal(once), max);
      if LongCount(blocks, max) > 0 {
        TruncationRepeats(m, aggressive);
      } else {
        TruncatedTwice(blocks, total, TextTotal(once), max);
        TruncatedAlikeIff(blocks, total, TextTotal(once), max);
        NothingTruncated(blocks, total, max);
      }
    }
  }

  lemma NothingTruncated(blocks: seq<Block>, total: nat, max: nat)
    requires LongCount(blocks, max) == 0
    ensures TruncatedBlocks(blocks, total, max) == blocks
  {
    NoneLongIff(blocks, max);
    hide TruncationNote;
  }

  // ---------------------------------------------------------------- one pass

  const MIN_MESSAGES_TO_KEEP := 4
  const FALLBACK_KEEP_RECENT_TOKENS := 32_000

  /** The heuristic summary; `details` stands for the skeleton it is filled with. */
  function DiscardSummary(details: string): string {
    START + "\n" + details + END
  }

  /** What the summary model is asked: a first summary of old messages, or a prior summary brought up to date. */
  datatype Asked =
    | Nothing
    | Primary(history: seq<Message>)
    | Merge(prior: string, delta: seq<Message>)

  /**
   The conversation after a pass, how many of its messages were cut away, what the model was asked,
   whether a summary was put at the head, and whether that summary was not a heuristic one.
   */
  datatype Outcome = Outcome(messages: seq<Message>, cut: nat, asked: Asked, replaced: bool, summarised: bool)

  /** Everything a pass depends on besides the conversation; `answer` is the model's reply, if it gave one. */
  datatype Inputs = Inputs(cancelled: bool, tokens: seq<nat>, keep: nat, budget: nat, answer: Option<string>,
                           details: string)

  function CompressFallback(messages: seq<Message>, x: Inputs): Outcome
    requires |x.tokens| == |messages|
  {
    var cut := CutPoint(messages, x.tokens, x.keep);
    if messages == [] || Sum(x.tokens) <= x.budget then Outcome(messages, 0, Nothing, false, false)
    else if cut == 0 || |messages| - cut < MIN_MESSAGES_TO_KEEP
      then Outcome(TruncateOldResults(messages), 0, Nothing, false, false)
    else Outcome(BuildCompressed(DiscardSummary(x.details), messages[cut..]), cut, Nothing, true, false)
  }

  function Question(prior: Option<(string, nat)>, head: seq<Message>): Asked {
    if prior.None? then Primary(head)
    else if prior.value.1 < |head| then Merge(prior.value.0, head[prior.value.1..])
    else Nothing
  }

  /**
   The summary the pass ends up with: the prior one verbatim when there is nothing to add, else the model's,
   normalised.
   */
  function NewSummary(prior: Option<(string, nat)>, asked: Asked, answer: Option<string>): Option<string> {
    if asked == Nothing && prior.Some? then Some(prior.value.0)
    else if answer.Some? then NormalizeCompactSummary(answer.value, None)
    else None
  }

  function AutoCompress(messages: seq<Message>, x: Inputs): Outcome
    requires |x.tokens| == |messages|
  {
    if messages == [] then Outcome(messages, 0, Nothing, false, false)
    else if x.cancelled then CompressFallback(messages, x)
    else
      var cut := CutPoint(messages, x.tokens, x.keep);
      if cut == 0 then CompressFallback(messages, x)
      else
        var prior := DetectPriorSummary(messages[..cut]);
        var asked := Question(prior, messages[..cut]);
        var summary := NewSummary(prior, asked, x.answer);
        if summary.Some? then Outcome(BuildCompressed(summary.value, messages[cut..]), cut, asked, true, true)
        else
          var wider := Min(CutPoint(messages, x.tokens, FALLBACK_KEEP_RECENT_TOKENS), cut);
          Outcome(BuildCompressed(DiscardSummary(x.details), messages[wider..]), wider, asked, true, false)
  }

  datatype Marker = Marker(summary: string, source: string)

  class CompressedAgent {
    var messages: seq<Message>
    var markers: seq<Marker>

    constructor (history: seq<Message>)
      ensures messages == history && markers == []
    {
      messages := history;
      markers := [];
    }

    method Fallback(x: Inputs) returns (ghost o: Outcome)
      requires |x.tokens| == |messages|
      modifies this`messages
      ensures o == CompressFallback(old(messages), x) && messages == o.messages
    {
      o := CompressFallback(messages, x);
      if messages == [] || Sum(x.tokens) <= x.budget {
        return;
      }
      var cut := FindCutPoint(messages, x.tokens, x.keep);
      CutPointKeepsExchanges(messages, x.tokens, x.keep);
      if cut == 0 || |messages| - cut < MIN_MESSAGES_TO_KEEP {
        messages := TruncateOldResults(messages);
        return;
      }
      messages := BuildCompressed(DiscardSummary(x.details), messages[cut..]);
    }

    /** A pass; the markers record the summary that was put at the head and where it came from. */
    method RunAutoCompression(x: Inputs) returns (ghost o: Outcome)
      requires |x.tokens| == |messages|
      modifies this
      ensures o == AutoCompress(old(messages), x) && messages == o.messages
      ensures o.asked != Nothing || o.summarised ==>
        o.messages != [] && o.messages[0].User? && o.messages[0].content.Plain?
        && markers == old(markers)
           + [Marker(o.messages[0].content.text, if o.summarised then "auto" else "auto_fallback")]
      ensures o.asked == Nothing && !o.summarised ==> markers == old(markers)
    {
      o := AutoCompress(messages, x);
      if messages == [] {
        return;
      }
      if x.cancelled {
        var _ := Fallback(x);
        return;
      }
      var cut := FindCutPoint(messages, x.tokens, x.keep);
      CutPointKeepsExchanges(messages, x.tokens, x.keep);
      if cut == 0 {
        var _ := Fallback(x);
        return;
      }
      var prior := DetectPriorSummary(messages[..cut]);
      var asked := Question(prior, messages[..cut]);
      var summary := NewSummary(prior, asked, x.answer);
      if summary.Some? {
        markers := markers + [Marker(summary.value, "auto")];
        messages := BuildCompressed(summary.value, messages[cut..]);
        return;
      }
      var wider := FindCutPoint(messages, x.tokens, FALLBACK_KEEP_RECENT_TOKENS);
      if wider > cut {
        wider := cut;
      }
      markers := markers + [Marker(DiscardSummary(x.details), "auto_fallback")];
      messages := BuildCompressed(DiscardSummary(x.details), messages[wider..]);
    }
  }
}
