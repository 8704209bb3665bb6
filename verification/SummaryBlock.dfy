/**
 The wrapper around a summary: what the model returned is brought into one `context_summary` block,
 and a later pass recognises that block at the head of the conversation. The two agree on every
 input; normalising twice changes nothing except in one family of inputs, given exactly.
 */
module SummaryBlock {
  import opened Prelude
  import opened Strings
  import opened Summary

  const START := "<context_summary>"
  const END := "</context_summary>"

  // ---------------------------------------------------------------- searching

  predicate At(s: string, t: string, i: nat) {
    i + |t| <= |s| && s[i..i + |t|] == t
  }

  /** The first occurrence of t at or after position i. */
  function FindFrom(s: string, t: string, i: nat): (r: Option<nat>)
    ensures r.Some? ==> r.value >= i && At(s, t, r.value) && forall j :: i <= j < r.value ==> !At(s, t, j)
    ensures r.None? ==> forall j :: i <= j ==> !At(s, t, j)
    decreases |s| - i
  {
    if i + |t| > |s| then None
    else if At(s, t, i) then Some(i)
    else FindFrom(s, t, i + 1)
  }

  predicate Contains(s: string, t: string) {
    FindFrom(s, t, 0).Some?
  }

  /** The first occurrence is determined by its position and the absence of an earlier one. */
  lemma FoundAt(s: string, t: string, i: nat, k: nat)
    requires i <= k && At(s, t, k) && forall j :: i <= j < k ==> !At(s, t, j)
    ensures FindFrom(s, t, i) == Some(k)
  {
    var r := FindFrom(s, t, i);
    assert r.Some?;
  }

  // ---------------------------------------------------------------- extracting

  function ExtractBlock(raw: string): Option<string> {
    var start := FindFrom(raw, START, 0);
    if start.None? then None
    else
      var end := FindFrom(raw, END, start.value + |START|);
      if end.None? then None
      else
        var candidate := Trim(raw[start.value..end.value + |END|]);
        if candidate == "" then None else Some(candidate)
  }

  function StripStarts(s: string, t: string): string
    requires t != ""
    decreases |s|
  {
    if t <= s then StripStarts(s[|t|..], t) else s
  }

  function StripEnds(s: string, t: string): string
    requires t != ""
    decreases |s|
  {
    if |t| <= |s| && s[|s| - |t|..] == t then StripEnds(s[..|s| - |t|], t) else s
  }

  function NonEmpty(s: string): Option<string> {
    if s == "" then None else Some(s)
  }

  function ExtractBody(raw: string): Option<string> {
    var block := ExtractBlock(raw);
    var start, end := FindFrom(raw, START, 0), FindFrom(raw, END, 0);
    if block.Some? then NonEmpty(Trim(StripEnds(StripStarts(block.value, START), END)))
    else if start.Some? then NonEmpty(Trim(raw[start.value + |START|..]))
    else if end.Some? then NonEmpty(Trim(raw[..end.value]))
    else None
  }

  function Wrapped(body: string): string {
    START + "\n" + body + "\n" + END
  }

  function AppendInstructions(summary: string, instructions: Option<string>): string {
    if instructions.None? || Trim(instructions.value) == "" then summary
    else summary + "\n\n<extra_instructions>\n" + Trim(instructions.value) + "\n</extra_instructions>"
  }

  /** The body used when the text holds no complete block. */
  function FallbackBody(text: string): string {
    var body := ExtractBody(text);
    if body.Some? then body.value else text
  }

  function Normalized(text: string): string {
    var block := ExtractBlock(text);
    if block.Some? then block.value else Wrapped(Trim(FallbackBody(text)))
  }

  function NormalizeCompactSummary(raw: string, instructions: Option<string>): Option<string> {
    if Trim(raw) == "" then None else Some(AppendInstructions(Normalized(Trim(raw)), instructions))
  }

  /** The text a conversation's first message is inspected by. */
  function FirstText(blocks: seq<Block>): string {
    if blocks == [] then ""
    else if blocks[0].Text? then blocks[0].text
    else FirstText(blocks[1..])
  }

  function DetectPriorSummary(messages: seq<Message>): Option<(string, nat)> {
    if messages == [] || !messages[0].User? then None
    else
      var text := match messages[0].content
        case Plain(t) => t
        case Blocks(blocks) => FirstText(blocks);
      var trimmed := TrimStart(text);
      if !(START <= trimmed) || !Contains(trimmed, END) then None else Some((text, 1))
  }

  /** The text is somewhere in s. */
  predicate Within(s: string, t: string) {
    exists j :: 0 <= j <= |s| && At(s, t, j)
  }

  lemma ContainsIff(s: string, t: string)
    ensures Contains(s, t) <==> Within(s, t)
  {
    hide FindFrom;
  }

  /**
   The text a conversation is inspected by: of its first message, if a user sent it, the text or the first text
   block.
   */
  predicate HeadText(messages: seq<Message>, text: string) {
    && messages != [] && messages[0].User?
    && match messages[0].content
       case Plain(t) => text == t
       case Blocks(blocks) =>
         if exists i :: 0 <= i < |blocks| && blocks[i].Text? then
           exists i :: 0 <= i < |blocks| && blocks[i].Text? && blocks[i].text == text && forall j :: 0 <= j < i ==>
             !blocks[j].Text?
         else text == ""
  }

  lemma {:induction false} FirstTextIs(blocks: seq<Block>)
    ensures HeadText([User(Blocks(blocks))], FirstText(blocks))
  {
    if blocks != [] {
      if blocks[0].Text? {
        assert blocks[0].text == FirstText(blocks);
      } else {
        var rest := blocks[1..];
        FirstTextIs(rest);
        assert forall i :: 0 <= i < |rest| ==> rest[i] == blocks[i + 1];
        assert forall i :: 1 <= i < |blocks| ==> blocks[i] == rest[i - 1];
        if i :| 0 <= i < |rest| && rest[i].Text? && rest[i].text == FirstText(rest) && forall j :: 0 <= j < i ==>
          !rest[j].Text? {
          assert blocks[i + 1].Text?;
        }
      }
    }
  }

  /**
   A prior summary is detected exactly when that text, without leading whitespace, begins with the start tag
   and holds the end tag; it is the whole text, and covers one message.
   */
  lemma DetectedIff(messages: seq<Message>, text: string)
    requires HeadText(messages, text)
    ensures var found := "<context_summary>" <= TrimStart(text) && Within(TrimStart(text), "</context_summary>");
      DetectPriorSummary(messages) == if found then Some((text, 1)) else None
  {
    hide TrimStart, Contains, Within, FindFrom, FirstText, HeadText;
    HeadTextIs(messages, text);
    ContainsIff(TrimStart(text), END);
  }

  lemma HeadTextIs(messages: seq<Message>, text: string)
    requires HeadText(messages, text)
    ensures messages != [] && messages[0].User?
    ensures text == match messages[0].content case Plain(t) => t case Blocks(blocks) => FirstText(blocks)
  {
    hide FirstText;
    if messages[0].content.Blocks? {
      OneFirstText(messages[0].content.blocks, text);
    }
  }

  lemma OneFirstText(blocks: seq<Block>, text: string)
    requires HeadText([User(Blocks(blocks))], text)
    ensures text == FirstText(blocks)
  {
    FirstTextIs(blocks);
    hide FirstText;
  }

  // ---------------------------------------------------------------- blocks

  /** A complete block: the start tag, and the end tag for the first time at its very end. */
  ghost predicate Block(b: string) {
    && |START| + |END| <= |b|
    && At(b, START, 0) && At(b, END, |b| - |END|)
    && forall j :: |START| <= j < |b| - |END| ==> !At(b, END, j)
  }

  lemma TagShapes()
    ensures |START| == 17 && |END| == 18
    ensures '\n' !in END
    ensures START[0] == '<' && START[16] == '>' && END[0] == '<' && END[17] == '>'
    ensures !IsWhitespace('<') && !IsWhitespace('>')
  {
  }

  lemma AtShifted(s: string, t: string, a: nat, b: nat, j: nat)
    requires a <= b <= |s| && j + |t| <= b - a
    ensures At(s[a..b], t, j) <==> At(s, t, a + j)
  {
    var x, y := s[a..b][j..j + |t|], s[a + j..a + j + |t|];
    assert |x| == |y| && forall k :: 0 <= k < |x| ==> x[k] == y[k];
    assert x == y;
  }

  lemma AtPrefix(s: string, u: string, t: string, j: nat)
    requires j + |t| <= |s|
    ensures At(s + u, t, j) <==> At(s, t, j)
  {
    assert (s + u)[j..j + |t|] == s[j..j + |t|];
  }

  lemma BlockEnds(b: string)
    requires Block(b)
    ensures b[0] == '<' && b[|b| - 1] == '>' && Trim(b) == b && TrimStart(b) == b
  {
    hide START, END, Trim, TrimStart, TrimEnd;
    TagShapes();
    assert b[0..17][0] == b[0];
    assert b[|b| - 18..|b|][17] == b[|b| - 1];
    TrimFixed(b);
  }

  lemma FoundSpan(raw: string, start: nat, end: nat)
    requires At(raw, START, start) && At(raw, END, end) && start + |START| <= end
    ensures end + |END| <= |raw|
  {
  }

  /** From a start tag to the first end tag behind it. */
  lemma SliceIsBlock(raw: string, start: nat, end: nat)
    requires start + |START| <= end && end + |END| <= |raw| && At(raw, START, start) && At(raw, END, end)
    requires forall j :: start + |START| <= j < end ==> !At(raw, END, j)
    ensures Block(raw[start..end + |END|])
  {
    hide START, END, At, IsWhitespace;
    TagShapes();
    var c := raw[start..end + |END|];
    AtShifted(raw, START, start, end + |END|, 0);
    AtShifted(raw, END, start, end + |END|, end - start);
    forall j | |START| <= j < |c| - |END| ensures !At(c, END, j) {
      AtShifted(raw, END, start, end + |END|, j);
    }
  }

  /** What is extracted is a complete block. */
  lemma ExtractedIsBlock(raw: string)
    requires ExtractBlock(raw).Some?
    ensures Block(ExtractBlock(raw).value)
  {
    hide START, END, Trim, TrimStart, TrimEnd, FindFrom, IsWhitespace, At;
    TagShapes();
    var start := FindFrom(raw, START, 0).value;
    var end := FindFrom(raw, END, start + |START|).value;
    FoundSpan(raw, start, end);
    SliceIsBlock(raw, start, end);
    hide Block;
    BlockEnds(raw[start..end + |END|]);
  }

  lemma TagEnds(s: string, start: nat, end: nat)
    requires At(s, START, start) && At(s, END, end) && start + 17 <= end
    ensures var c := s[start..end + 18]; c[0] == '<' && c[|c| - 1] == '>'
  {
    TagShapes();
    assert s[start..start + 17][0] == s[start] && s[end..end + 18][17] == s[end + 17];
  }

  lemma ExtractsSlice(raw: string, start: nat, end: nat)
    requires FindFrom(raw, START, 0) == Some(start) && FindFrom(raw, END, start + 17) == Some(end)
    ensures end + 18 <= |raw| && start <= end && ExtractBlock(raw) == Some(raw[start..end + 18])
  {
    hide START, END, Trim, TrimStart, TrimEnd, FindFrom, IsWhitespace;
    TagShapes();
    assert At(raw, START, start) && At(raw, END, end);
    TagEnds(raw, start, end);
    hide At;
    TrimFixed(raw[start..end + 18]);
  }

  /** A block at the head of a text is what is extracted from it. */
  lemma HeadBlockExtracted(b: string, rest: string)
    requires Block(b)
    ensures ExtractBlock(b + rest) == Some(b)
  {
    hide START, END, FindFrom, ExtractBlock;
    TagShapes();
    var raw := b + rest;
    AtPrefix(b, rest, START, 0);
    FoundAt(raw, START, 0, 0);
    AtPrefix(b, rest, END, |b| - |END|);
    forall j | |START| <= j < |b| - |END| ensures !At(raw, END, j) {
      AtPrefix(b, rest, END, j);
    }
    FoundAt(raw, END, |START|, |b| - |END|);
    ExtractsSlice(raw, 0, |b| - 18);
    assert raw[0..|b|] == b;
  }

  /** An occurrence of the end tag cannot span a line break, so wrapping a body adds only the one at the end. */
  lemma WrappedIsBlock(body: string)
    requires !Contains(body, END)
    ensures Block(Wrapped(body))
  {
    TagShapes();
    var w := Wrapped(body);
    assert w == START + ("\n" + body + "\n" + END);
    assert w[0..17] == START;
    assert w[|w| - 18..|w|] == END;
    hide START, END, FindFrom, Wrapped, IsWhitespace;
    assert w[18..18 + |body|] == body && w[17] == '\n' && w[18 + |body|] == '\n';
    forall j | 17 <= j < |w| - 18 ensures !At(w, END, j) {
      OnlyAtEnd(w, body, j);
    }
  }

  lemma OnlyAtEnd(w: string, body: string, j: nat)
    requires !Contains(body, END) && |w| == 37 + |body| && 17 <= j < |w| - 18
    requires w[17] == '\n' && w[18 + |body|] == '\n' && w[18..18 + |body|] == body
    ensures !At(w, END, j)
  {
    TagShapes();
    hide END, IsWhitespace;
    var n := 18 + |body|;
    if At(w, END, j) {
      NoBreakInside(w, j, 17);
      NoBreakInside(w, j, n);
      assert 18 <= j && j + 18 <= n;
      AtShifted(w, END, 18, n, j - 18);
    }
  }

  lemma NoBreakInside(w: string, j: nat, n: nat)
    requires At(w, END, j) && n < |w| && w[n] == '\n'
    ensures n < j || j + 18 <= n
  {
    TagShapes();
    assert w[j..j + 18] == END;
  }

  // ---------------------------------------------------------------- every normalised summary is recognised

  lemma WrappedHead(body: string)
    ensures At(Wrapped(body), START, 0) && At(Wrapped(body), END, |Wrapped(body)| - 18)
  {
    var w := Wrapped(body);
    TagShapes();
    assert w == START + ("\n" + body + "\n" + END);
    assert w[0..17] == START;
    assert w[|w| - 18..|w|] == END;
  }

  lemma NormalizedHead(text: string)
    ensures var n := Normalized(text);
      |n| >= 35 && At(n, START, 0) && At(n, END, |n| - 18)
  {
    hide START, END, Trim, FindFrom, ExtractBlock, FallbackBody;
    TagShapes();
    if ExtractBlock(text).Some? {
      hide Wrapped;
      ExtractedIsBlock(text);
    } else {
      WrappedHead(Trim(FallbackBody(text)));
    }
  }

  /** Normaliser and detector agree: whatever is returned is recognised as a prior summary, in one message, whole. */
  lemma NormalizedIsDetected(raw: string, instructions: Option<string>, later: seq<Message>)
    requires NormalizeCompactSummary(raw, instructions).Some?
    ensures var s := NormalizeCompactSummary(raw, instructions).value;
      DetectPriorSummary([User(Plain(s))] + later) == Some((s, 1))
  {
    var text := Trim(raw);
    var n := Normalized(text);
    NormalizedHead(text);
    hide Normalized, Trim;
    TagShapes();
    var s := AppendInstructions(n, instructions);
    var rest := s[|n|..];
    assert s == n + rest;
    AtPrefix(n, rest, START, 0);
    AtPrefix(n, rest, END, |n| - 18);
    assert s[0..17] == START && s[0..17][0] == s[0];
    assert TrimStart(s) == s;
    assert Contains(s, END);
  }

  // ---------------------------------------------------------------- normalising again

  lemma BlockIsFixed(b: string)
    requires Block(b)
    ensures NormalizeCompactSummary(b, None) == Some(b)
  {
    hide START, END, Trim, TrimStart, TrimEnd, FindFrom, ExtractBlock, At;
    TagShapes();
    BlockEnds(b);
    HeadBlockExtracted(b, "");
    assert b + "" == b;
  }

  /** What is extracted from a normalised summary is a fixed point of normalising. */
  lemma ExtractedBlockIsFixed(raw: string, instructions: Option<string>)
    requires NormalizeCompactSummary(raw, instructions).Some?
    ensures var b := ExtractBlock(NormalizeCompactSummary(raw, instructions).value);
      b.Some? && NormalizeCompactSummary(b.value, None) == b
  {
    hide START, END, Trim, TrimStart, TrimEnd, FindFrom, ExtractBlock, Normalized, Block;
    var n := Normalized(Trim(raw));
    NormalizedHead(Trim(raw));
    var s := AppendInstructions(n, instructions);
    HeadExtracts(n, s[|n|..]);
    assert s == n + s[|n|..];
    var b := ExtractBlock(s).value;
    ExtractedIsBlock(s);
    hide AppendInstructions;
    BlockIsFixed(b);
  }

  /** A text that opens with the start tag and holds an end tag yields a block, whatever follows. */
  lemma HeadExtracts(n: string, rest: string)
    requires |n| >= 35 && At(n, START, 0) && At(n, END, |n| - 18)
    ensures ExtractBlock(n + rest).Some?
  {
    hide START, END, FindFrom, ExtractBlock;
    TagShapes();
    var raw := n + rest;
    AtPrefix(n, rest, START, 0);
    FoundAt(raw, START, 0, 0);
    AtPrefix(n, rest, END, |n| - 18);
    assert FindFrom(raw, END, 17).Some?;
    ExtractsSlice(raw, 0, FindFrom(raw, END, 17).value);
  }

  /** What follows a text that opens with the start tag and ends with the end tag changes nothing about its block. */
  lemma SameHeadBlock(n: string, rest: string)
    requires |n| >= 35 && At(n, START, 0) && At(n, END, |n| - 18)
    ensures ExtractBlock(n + rest) == ExtractBlock(n)
  {
    hide START, END, FindFrom, ExtractBlock;
    TagShapes();
    var raw := n + rest;
    AtPrefix(n, rest, START, 0);
    FoundAt(raw, START, 0, 0);
    FoundAt(n, START, 0, 0);
    assert FindFrom(n, END, 17).Some?;
    var k := FindFrom(n, END, 17).value;
    assert k <= |n| - 18;
    AtPrefix(n, rest, END, k);
    forall j | 17 <= j < k ensures !At(raw, END, j) {
      AtPrefix(n, rest, END, j);
    }
    FoundAt(raw, END, 17, k);
    ExtractsSlice(raw, 0, k);
    ExtractsSlice(n, 0, k);
    assert raw[0..k + 18] == n[0..k + 18];
  }

  /** Instructions are appended whole behind the summary and never change the block that is extracted later. */
  lemma InstructionsFollowTheBlock(raw: string, instructions: string)
    requires Trim(raw) != "" && Trim(instructions) != ""
    ensures var plain := NormalizeCompactSummary(raw, None).value;
      var extended := NormalizeCompactSummary(raw, Some(instructions)).value;
      && plain <= extended && ExtractBlock(extended) == ExtractBlock(plain)
      && At(extended, Trim(instructions), |plain| + 23)
  {
    hide Normalized, Trim, ExtractBlock, START, END;
    NormalizedHead(Trim(raw));
    var n := Normalized(Trim(raw));
    var extra := Trim(instructions);
    var s := AppendInstructions(n, Some(instructions));
    var opening := "\n\n<extra_instructions>\n";
    assert |opening| == 23;
    assert s == n + (opening + extra + "\n</extra_instructions>");
    assert s[|n| + 23..|n| + 23 + |extra|] == extra;
    SameHeadBlock(n, opening + extra + "\n</extra_instructions>");
  }

  /** The texts normalising does not settle at once: no complete block, and a stray end tag left in the body. */
  predicate StrayEnd(text: string) {
    && ExtractBlock(text).None?
    && Contains(text, END)
    && (if FindFrom(text, START, 0).Some? then Trim(text[FindFrom(text, START, 0).value + |START|..]) == ""
        else Trim(text[..FindFrom(text, END, 0).value]) == "")
  }

  lemma StrayEndIff(text: string)
    requires Trim(text) == text
    ensures StrayEnd(text) <==> ExtractBlock(text).None? && Contains(Trim(FallbackBody(text)), END)
  {
    hide START, END, Trim, TrimStart, TrimEnd, FindFrom, ExtractBlock, FallbackBody;
    if ExtractBlock(text).None? {
      if FindFrom(text, START, 0).Some? {
        BodyAfterStart(text);
      } else if FindFrom(text, END, 0).Some? {
        BodyBeforeEnd(text);
      } else {
        NoTagBody(text);
      }
    }
  }

  lemma NoTagBody(text: string)
    requires Trim(text) == text && ExtractBlock(text).None?
    requires FindFrom(text, START, 0).None? && FindFrom(text, END, 0).None?
    ensures Trim(FallbackBody(text)) == text && !Contains(text, END)
  {
    hide START, END, Trim, TrimStart, TrimEnd, FindFrom, ExtractBlock;
  }

  lemma TrimIsSlice(s: string) returns (a: nat, b: nat)
    ensures a <= b <= |s| && Trim(s) == s[a..b]
  {
    hide TrimStart, TrimEnd, IsWhitespace;
    var t := TrimStart(s);
    a := |s| - |t|;
    b := a + |Trim(s)|;
    assert t == s[a..];
    assert TrimEnd(t) == t[..|Trim(s)|];
    assert t[..b - a] == s[a..b];
  }

  lemma TrimKeepsAbsence(s: string)
    requires forall j :: 0 <= j ==> !At(s, END, j)
    ensures !Contains(Trim(s), END)
  {
    hide START, END, Trim, TrimStart, TrimEnd, FindFrom;
    TagShapes();
    var a, b := TrimIsSlice(s);
    var found := FindFrom(s[a..b], END, 0);
    if found.Some? {
      AtShifted(s, END, a, b, found.value);
    }
  }

  lemma AbsentEverywhere(s: string)
    requires !Contains(s, END)
    ensures forall j :: 0 <= j ==> !At(s, END, j)
  {
    hide END;
  }

  lemma NoEndInSlice(s: string, a: nat, b: nat)
    requires a <= b <= |s| && forall j :: a <= j < b ==> !At(s, END, j)
    ensures forall j :: 0 <= j ==> !At(s[a..b], END, j)
  {
    hide END;
    TagShapes();
    forall j | 0 <= j ensures !At(s[a..b], END, j) {
      if j + 18 <= b - a {
        AtShifted(s, END, a, b, j);
      }
    }
  }

  lemma NoBlockWithoutStart(text: string)
    requires FindFrom(text, START, 0).None?
    ensures ExtractBlock(text).None?
  {
  }

  lemma FallbackAfterStart(text: string)
    requires ExtractBlock(text).None? && FindFrom(text, START, 0).Some?
    ensures var start := FindFrom(text, START, 0).value;
      && start + |START| <= |text|
      && var rest := Trim(text[start + |START|..]); FallbackBody(text) == if rest == "" then text else rest
  {
    hide START, END, Trim, FindFrom, ExtractBlock;
  }

  lemma BodyAfterStart(text: string)
    requires Trim(text) == text && ExtractBlock(text).None? && FindFrom(text, START, 0).Some?
    ensures var rest := Trim(text[FindFrom(text, START, 0).value + |START|..]);
      Contains(Trim(FallbackBody(text)), END) <==> rest == "" && Contains(text, END)
  {
    hide START, END, Trim, TrimStart, TrimEnd, FindFrom, ExtractBlock, IsWhitespace, FallbackBody, At;
    TagShapes();
    FallbackAfterStart(text);
    var start := FindFrom(text, START, 0).value;
    var after := text[start + 17..];
    NoEndAfter(text);
    NoEndInSlice(text, start + 17, |text|);
    assert text[start + 17..|text|] == after;
    TrimKeepsAbsence(after);
    AbsentEverywhere(Trim(after));
    TrimKeepsAbsence(Trim(after));
  }

  /** Without a block, no end tag follows the start tag. */
  lemma NoEndAfter(text: string)
    requires ExtractBlock(text).None? && FindFrom(text, START, 0).Some?
    ensures FindFrom(text, END, FindFrom(text, START, 0).value + |START|).None?
  {
    hide START, END, FindFrom, ExtractBlock;
    TagShapes();
    var start := FindFrom(text, START, 0).value;
    var end := FindFrom(text, END, start + 17);
    if end.Some? {
      ExtractsSlice(text, start, end.value);
    }
  }

  lemma BodyBeforeEnd(text: string)
    requires Trim(text) == text && FindFrom(text, START, 0).None? && FindFrom(text, END, 0).Some?
    ensures Contains(Trim(FallbackBody(text)), END) <==> Trim(text[..FindFrom(text, END, 0).value]) == ""
  {
    hide START, END, Trim, TrimStart, TrimEnd, FindFrom, ExtractBlock;
    TagShapes();
    var end := FindFrom(text, END, 0).value;
    var before := text[..end];
    hide At;
    NoEndInSlice(text, 0, end);
    assert text[0..end] == before;
    TrimKeepsAbsence(before);
    AbsentEverywhere(Trim(before));
    TrimKeepsAbsence(Trim(before));
    NoBlockWithoutStart(text);
  }

  /** A normalised summary without a stray end tag is one block and its instructions. */
  lemma NormalizedIsBlockIff(text: string)
    requires Trim(text) == text
    ensures Block(Normalized(text)) <==> !StrayEnd(text)
  {
    hide START, END, Trim, TrimStart, TrimEnd, FindFrom, ExtractBlock, FallbackBody, Block, Wrapped;
    StrayEndIff(text);
    if ExtractBlock(text).Some? {
      ExtractedIsBlock(text);
    } else {
      var body := Trim(FallbackBody(text));
      if Contains(body, END) {
        WrappedEndsEarly(body);
      } else {
        WrappedIsBlock(body);
      }
    }
  }

  lemma WrappedEndsEarly(body: string)
    requires Contains(body, END)
    ensures !Block(Wrapped(body))
  {
    TagShapes();
    var w := Wrapped(body);
    var j := FindFrom(body, END, 0).value;
    assert w == (START + "\n") + body + ("\n" + END);
    assert w[18 + j..18 + j + 18] == body[j..j + 18];
    assert At(w, END, 18 + j) && 17 <= 18 + j < |w| - 18;
  }

  lemma TrimIsTrimmed(s: string)
    ensures Trim(Trim(s)) == Trim(s)
  {
    if Trim(s) != "" {
      TrimFixed(Trim(s));
    }
  }

  /**
   The exact condition: normalising a normalised summary again, with the same instructions, changes
   nothing if and only if the text had no stray end tag in its body.
   */
  lemma NormalizingIsIdempotentIff(raw: string, instructions: Option<string>)
    requires NormalizeCompactSummary(raw, instructions).Some?
    ensures var once := NormalizeCompactSummary(raw, instructions);
      NormalizeCompactSummary(once.value, instructions) == once <==> !StrayEnd(Trim(raw))
  {
    hide START, END, Trim, TrimStart, TrimEnd, FindFrom, ExtractBlock, Normalized, StrayEnd, Block;
    TrimIsTrimmed(raw);
    var text := Trim(raw);
    var n := Normalized(text);
    NormalizedHead(text);
    NormalizedIsBlockIff(text);
    var s := AppendInstructions(n, instructions);
    AppendedIsTrimmed(n, instructions);
    var rest := s[|n|..];
    assert s == n + rest;
    HeadExtracts(n, rest);
    var b := ExtractBlock(s).value;
    NormalizedOfBlock(s);
    if Block(n) {
      HeadBlockExtracted(n, rest);
    } else {
      ExtractedIsBlock(s);
      hide AppendInstructions;
      AppendedInjective(b, n, instructions);
    }
  }

  lemma NormalizedOfBlock(s: string)
    requires ExtractBlock(s).Some?
    ensures Normalized(s) == ExtractBlock(s).value
  {
  }

  lemma AppendedInjective(a: string, b: string, instructions: Option<string>)
    requires a != b
    ensures AppendInstructions(a, instructions) != AppendInstructions(b, instructions)
  {
    var x, y := AppendInstructions(a, instructions), AppendInstructions(b, instructions);
    if |a| == |b| {
      assert x[..|a|] == a && y[..|b|] == b;
    }
  }

  lemma AppendedIsTrimmed(n: string, instructions: Option<string>)
    requires |n| >= 35 && At(n, START, 0) && At(n, END, |n| - 18)
    ensures Trim(AppendInstructions(n, instructions)) == AppendInstructions(n, instructions)
  {
    TagShapes();
    var s := AppendInstructions(n, instructions);
    assert s[..|n|] == n;
    assert s[0] == n[0] && n[0] == n[0..17][0];
    assert n[|n| - 1] == n[|n| - 18..|n|][17];
    var tail := "\n</extra_instructions>";
    assert tail[|tail| - 1] == '>';
    TrimFixed(s);
  }

  /** A text without a start tag that opens with the end tag is a stray end. */
  lemma StrayClosingTag(raw: string)
    requires 18 < |raw| < 35 && raw[..18] == END && !IsWhitespace(raw[|raw| - 1]) && forall j :: 0 < j < |raw| ==>
            raw[j] != '<'
    ensures Trim(raw) == raw && StrayEnd(raw)
  {
    assert END[1] == '/';
    hide START, END, ExtractBlock, FindFrom, Trim, TrimStart, TrimEnd, IsWhitespace;
    TagShapes();
    assert raw[0] == raw[..18][0] && raw[1] == raw[..18][1];
    TrimFixed(raw);
    assert raw[0..18] == raw[..18];
    FoundAt(raw, END, 0, 0);
    NoStartIn(raw);
    NoBlockWithoutStart(raw);
    TrimEmpty();
    assert raw[..0] == "";
  }

  lemma TrimEmpty()
    ensures Trim("") == ""
  {
  }

  /** A text holding a complete block is always settled at once; a reply that opens with a closing tag is not. */
  lemma StrayEndExample()
    ensures var raw := "</context_summary> foo";
      var once := NormalizeCompactSummary(raw, None);
      once.Some? && StrayEnd(raw) && NormalizeCompactSummary(once.value, None) != once
  {
    var raw := "</context_summary> foo";
    hide StrayEnd, Normalized, Trim;
    StrayClosingTag(raw);
    assert NormalizeCompactSummary(raw, None).Some?;
    hide NormalizeCompactSummary;
    NormalizingIsIdempotentIff(raw, None);
  }

  lemma NoStartIn(raw: string)
    requires |raw| < 35 && (forall j :: 0 < j < |raw| ==> raw[j] != '<') && |raw| > 1 && raw[1] == '/'
    ensures FindFrom(raw, START, 0).None?
  {
    assert START[1] == 'c';
    hide START, END, IsWhitespace, FindFrom;
    TagShapes();
    forall j | 0 <= j ensures !At(raw, START, j) {
      if j + 17 <= |raw| {
        var t := raw[j..j + 17];
        assert t[0] == raw[j] && t[1] == raw[j + 1];
      }
    }
  }

  // ---------------------------------------------------------------- letter by letter

  function Between(body: string): string {
    "<context_summary>\n" + body + "\n</context_summary>"
  }

  lemma WrappedLiterally(body: string)
    ensures Wrapped(body) == Between(body)
  {
    assert START + "\n" == "<context_summary>\n" && "\n" + END == "\n</context_summary>";
    assert START + "\n" + body + "\n" + END == (START + "\n") + body + ("\n" + END);
  }

  /**
   What the model's answer becomes: the text from the first start tag to the first end tag behind it; else
   what follows a start tag, or precedes an end tag, or all of it, between tags of its own.
   */
  lemma NormalizedIs(text: string)
    requires text != "" && Trim(text) == text
    ensures var start, end := FindFrom(text, "<context_summary>", 0), FindFrom(text, "</context_summary>", 0);
      Normalized(text) ==
      if start.Some? then
        var closing := FindFrom(text, "</context_summary>", start.value + 17);
        var body := Trim(text[start.value + 17..]);
        if closing.Some? then text[start.value..closing.value + 18]
        else Between(if body == "" then text else body)
      else if end.Some? then
        var body := Trim(text[..end.value]);
        Between(if body == "" then text else body)
      else Between(text)
  {
    hide TrimStart, TrimEnd, Trim, FindFrom, Wrapped, Between;
    TagShapes();
    var start, end := FindFrom(text, START, 0), FindFrom(text, END, 0);
    if start.Some? {
      var closing := FindFrom(text, END, start.value + 17);
      if closing.Some? {
        ExtractsSlice(text, start.value, closing.value);
      } else {
        WrappedLiterally(Trim(FallbackBody(text)));
        TrimmedTwice(text[start.value + 17..]);
      }
    } else {
      WrappedLiterally(Trim(FallbackBody(text)));
      if end.Some? {
        TrimmedTwice(text[..end.value]);
      }
    }
  }

  lemma TrimmedTwice(s: string)
    ensures Trim(Trim(s)) == Trim(s)
  {
    if Trim(s) != "" {
      TrimFixed(Trim(s));
    }
  }

  /** Instructions follow in tags of their own; blank ones do not. A blank answer is no summary. */
  lemma InstructedIs(raw: string, instructions: Option<string>)
    ensures NormalizeCompactSummary(raw, instructions) ==
            if Trim(raw) == "" then None
            else if instructions.None? || Trim(instructions.value) == "" then Some(Normalized(Trim(raw)))
            else Some(Normalized(Trim(raw)) + "\n\n<extra_instructions>\n" + Trim(instructions.value)
                      + "\n</extra_instructions>")
  {
    hide Trim, Normalized;
  }
}
