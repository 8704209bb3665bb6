/**
 Any sequence of messages appended and compression passes. Each message carries the number it was
 appended under; summaries carry none. Nothing is lost or reordered unaccounted for, each message is
 summarised at most once, and a summary is never summarised again.
 */
module CompressionRuns {
  import opened Prelude
  import opened Strings
  import opened Summary
  import opened SummaryBlock
  import opened Compression

  /** A pass: what was cut away, what of it the model was given as raw history, and whether its summary was used. */
  datatype Pass = Pass(removed: seq<Option<nat>>, given: seq<Option<nat>>, summarised: bool)

  /** The conversation, the origin of each of its messages, how many were appended, and the passes so far. */
  datatype Ledger = Ledger(messages: seq<Message>, origins: seq<Option<nat>>, appended: nat, passes: seq<Pass>)

  datatype Step = Appends(message: Message) | Compresses(inputs: Inputs)

  predicate Enabled(l: Ledger, step: Step) {
    step.Compresses? ==> |step.inputs.tokens| == |l.messages|
  }

  /** The part of the messages before the cut that was given to the model as raw history. */
  function Given(asked: Asked, shown: seq<Option<nat>>): seq<Option<nat>> {
    match asked
    case Nothing => []
    case Primary(_) => shown
    case Merge(_, _) => if shown == [] then [] else shown[1..]
  }

  function Next(l: Ledger, step: Step): (n: Ledger)
    requires Enabled(l, step) && |l.origins| == |l.messages|
    ensures |n.origins| == |n.messages|
  {
    match step
    case Appends(m) => Ledger(l.messages + [m], l.origins + [Some(l.appended)], l.appended + 1, l.passes)
    case Compresses(x) =>
      var o := AutoCompress(l.messages, x);
      PassShape(l.messages, x);
      if !o.replaced then l.(messages := o.messages)
      else
        var shown := if o.summarised then o.cut else CutPoint(l.messages, x.tokens, x.keep);
        Ledger(o.messages, [None] + l.origins[o.cut..], l.appended,
               l.passes + [Pass(l.origins[..o.cut], Given(o.asked, l.origins[..shown]), o.summarised)])
  }

  // ---------------------------------------------------------------- what a pass does to the conversation

  /** The head is a summary a later pass will recognise. */
  predicate HeadRecognised(messages: seq<Message>) {
    messages != [] && DetectPriorSummary(messages[..1]).Some?
  }

  lemma DetectionIsOfHead(messages: seq<Message>, n: nat)
    requires 0 < n <= |messages|
    ensures DetectPriorSummary(messages[..n]) == DetectPriorSummary(messages[..1])
    ensures var prior := DetectPriorSummary(messages[..n]); prior.Some? ==> prior.value.1 == 1
  {
    assert messages[..n][0] == messages[..1][0];
    hide TrimStart, Contains, FirstText;
  }

  lemma DiscardSummaryDetected(details: string, recent: seq<Message>)
    ensures HeadRecognised(BuildCompressed(DiscardSummary(details), recent))
  {
    TagShapes();
    var s := DiscardSummary(details);
    assert s == START + ("\n" + details + END);
    assert s[0] == START[0] && TrimStart(s) == s;
    assert s[|s| - 18..|s|] == END;
    assert At(s, END, |s| - 18);
    hide START, END, FindFrom, TrimStart;
    assert Contains(s, END);
    assert START <= s;
    var m := BuildCompressed(s, recent);
    assert m[..1][0] == User(Plain(s));
  }

  lemma SummaryDetected(prior: Option<(string, nat)>, messages: seq<Message>, n: nat, asked: Asked,
                        answer: Option<string>, recent: seq<Message>)
    requires 0 < n <= |messages| && prior == DetectPriorSummary(messages[..n])
            && asked == Question(prior, messages[..n])
    requires NewSummary(prior, asked, answer).Some?
    ensures HeadRecognised(BuildCompressed(NewSummary(prior, asked, answer).value, recent))
  {
    var s := NewSummary(prior, asked, answer).value;
    var m := BuildCompressed(s, recent);
    assert m[..1] == [User(Plain(s))] + [];
    if asked == Nothing && prior.Some? {
      DetectedAgain(messages[..n]);
    } else {
      NormalizedIsDetected(answer.value, None, []);
    }
  }

  /** The text found in a recognised head is recognised again as a message of its own. */
  lemma DetectedAgain(messages: seq<Message>)
    requires DetectPriorSummary(messages).Some?
    ensures DetectPriorSummary([User(Plain(DetectPriorSummary(messages).value.0))] + []).Some?
  {
    hide TrimStart, Contains, FirstText;
  }

  /** Truncating tool results never touches a recognised head. */
  lemma TruncatedHeadRecognised(messages: seq<Message>)
    requires HeadRecognised(messages)
    ensures HeadRecognised(TruncateOldResults(messages))
  {
    hide TrimStart, Contains, FirstText;
    assert messages[..1][0] == messages[0];
    assert TruncateOldResults(messages)[..1] == messages[..1];
  }

  lemma CompressFallbackShape(messages: seq<Message>, x: Inputs)
    requires |x.tokens| == |messages|
    ensures var o := CompressFallback(messages, x);
      && o.cut <= |messages| && o.asked == Nothing && !o.summarised
      && (!o.replaced ==> |o.messages| == |messages| && (HeadRecognised(messages) ==> HeadRecognised(o.messages)))
      && (o.replaced ==> o.cut > 0 && |o.messages| == 1 + |messages| - o.cut && HeadRecognised(o.messages))
  {
    hide CutPoint, HeadRecognised, DiscardSummary;
    if HeadRecognised(messages) {
      TruncatedHeadRecognised(messages);
    }
    DiscardSummaryDetected(x.details, messages[CutPoint(messages, x.tokens, x.keep)..]);
  }

  /** The pass asks nothing when it takes the truncation path. */
  predicate Asks(messages: seq<Message>, x: Inputs)
    requires |x.tokens| == |messages|
  {
    messages != [] && !x.cancelled && CutPoint(messages, x.tokens, x.keep) > 0
  }

  /** What any pass leaves: the messages from the cut on behind a recognised summary, or as many messages as before. */
  lemma PassShape(messages: seq<Message>, x: Inputs)
    requires |x.tokens| == |messages|
    ensures var o := AutoCompress(messages, x);
      && o.cut <= |messages|
      && (!o.replaced ==> |o.messages| == |messages| && (HeadRecognised(messages) ==> HeadRecognised(o.messages)))
      && (o.replaced ==> |o.messages| == 1 + |messages| - o.cut && HeadRecognised(o.messages))
      && (!Asks(messages, x) ==> o.asked == Nothing && !o.summarised && (o.replaced ==> o.cut > 0))
  {
    hide HeadRecognised, DiscardSummary, CompressFallback, NewSummary;
    CompressFallbackShape(messages, x);
    if Asks(messages, x) {
      var cut := CutPoint(messages, x.tokens, x.keep);
      var prior := DetectPriorSummary(messages[..cut]);
      var asked := Question(prior, messages[..cut]);
      var wider := Min(CutPoint(messages, x.tokens, FALLBACK_KEEP_RECENT_TOKENS), cut);
      hide CutPoint, Question;
      DiscardSummaryDetected(x.details, messages[wider..]);
      if NewSummary(prior, asked, x.answer).Some? {
        SummaryDetected(prior, messages, cut, asked, x.answer, messages[cut..]);
      }
    }
  }

  /**
   A successful pass partitions the conversation: what the prior summary covers, what the model was
   given as raw history, and what is kept are exactly the input, in order.
   */
  lemma SuccessfulPassPartitions(messages: seq<Message>, x: Inputs)
    requires |x.tokens| == |messages| && AutoCompress(messages, x).summarised
    ensures var o := AutoCompress(messages, x);
      && 0 < o.cut == CutPoint(messages, x.tokens, x.keep) <= |messages|
      && o.messages == [o.messages[0]] + TruncateAll(messages[o.cut..])
      && match o.asked
         case Primary(history) => history + messages[o.cut..] == messages && DetectPriorSummary(messages[..1]).None?
         case Merge(prior, delta) =>
           && [messages[0]] + delta + messages[o.cut..] == messages && delta != []
           && DetectPriorSummary(messages[..1]) == Some((prior, 1))
         case Nothing => o.cut == 1 && DetectPriorSummary(messages[..1]) == Some((o.messages[0].content.text, 1))
  {
    hide CompressFallback, DetectPriorSummary, DiscardSummary, TruncateAll, NormalizeCompactSummary;
    CompressFallbackShape(messages, x);
    var cut := CutPoint(messages, x.tokens, x.keep);
    hide CutPoint;
    DetectionIsOfHead(messages, cut);
    var prior := DetectPriorSummary(messages[..cut]);
    assert prior.Some? ==> prior == Some((prior.value.0, 1));
  }

  /**
   A failed pass keeps at least the messages a successful one would have kept, and exactly those at the wider
   cut when that keeps more tokens.
   */
  lemma FailedPassKeepsMore(messages: seq<Message>, x: Inputs)
    requires |x.tokens| == |messages|
    requires Asks(messages, x) && !AutoCompress(messages, x).summarised
    ensures var o := AutoCompress(messages, x);
      && o.replaced && o.cut <= CutPoint(messages, x.tokens, x.keep)
      && o.messages == [User(Plain(DiscardSummary(x.details)))] + TruncateAll(messages[o.cut..])
      && (x.keep <= FALLBACK_KEEP_RECENT_TOKENS ==> o.cut == CutPoint(messages, x.tokens, FALLBACK_KEEP_RECENT_TOKENS))
  {
    if x.keep <= FALLBACK_KEEP_RECENT_TOKENS {
      CutPointMonotone(messages, x.tokens, x.keep, FALLBACK_KEEP_RECENT_TOKENS);
    }
    hide CutPoint, NewSummary, DetectPriorSummary, Question;
  }

  // ---------------------------------------------------------------- every message is accounted for

  function Numbers(origins: seq<Option<nat>>): seq<nat> {
    if origins == [] then []
    else (if origins[0].Some? then [origins[0].value] else []) + Numbers(origins[1..])
  }

  lemma {:induction false} NumbersConcat(a: seq<Option<nat>>, b: seq<Option<nat>>)
    ensures Numbers(a + b) == Numbers(a) + Numbers(b)
  {
    if a == [] {
      assert a + b == b;
    } else {
      assert (a + b)[1..] == a[1..] + b;
      NumbersConcat(a[1..], b);
      var first := if a[0].Some? then [a[0].value] else [];
      assert (first + Numbers(a[1..])) + Numbers(b) == first + (Numbers(a[1..]) + Numbers(b));
    }
  }

  function Range(a: nat, b: nat): (r: seq<nat>)
    ensures |r| == if a <= b then b - a else 0
    ensures forall i :: 0 <= i < |r| ==> r[i] == a + i
    decreases b - a
  {
    if a >= b then [] else [a] + Range(a + 1, b)
  }

  /** How many appended messages the passes have cut away. */
  function Total(passes: seq<Pass>): nat {
    if passes == [] then 0 else Total(passes[..|passes| - 1]) + |Numbers(passes[|passes| - 1].removed)|
  }

  /** Each pass cut away the next stretch of the messages, in order, and the rest are all still there, in order. */
  ghost predicate Accounted(l: Ledger) {
    && |l.origins| == |l.messages|
    && Total(l.passes) <= l.appended
    && Numbers(l.origins) == Range(Total(l.passes), l.appended)
    && forall i :: 0 <= i < |l.passes| ==>
         Numbers(l.passes[i].removed) == Range(Total(l.passes[..i]), Total(l.passes[..i + 1]))
  }

  lemma RangeSplit(a: nat, b: nat, s: seq<nat>, t: seq<nat>)
    requires a <= b && s + t == Range(a, b)
    ensures s == Range(a, a + |s|) && t == Range(a + |s|, b) && a + |s| <= b
  {
    var r := Range(a, b);
    assert |s| + |t| == b - a;
    assert forall i :: 0 <= i < |s| ==> s[i] == r[i];
    assert forall i :: 0 <= i < |t| ==> t[i] == r[|s| + i];
  }

  lemma AppendKeeps(l: Ledger, m: Message)
    requires Accounted(l)
    ensures Accounted(Next(l, Appends(m)))
  {
    var n := Next(l, Appends(m));
    NumbersConcat(l.origins, [Some(l.appended)]);
    assert Numbers([Some(l.appended)]) == [l.appended] by { assert [Some(l.appended)][1..] == []; }
    hide Numbers, Total, Range;
    RangeNext(Total(l.passes), l.appended);
  }

  lemma RangeNext(a: nat, b: nat)
    requires a <= b
    ensures Range(a, b + 1) == Range(a, b) + [b]
  {
  }

  lemma PassRecorded(passes: seq<Pass>, p: Pass, origins: seq<Option<nat>>, kept: seq<Option<nat>>, appended: nat)
    requires Numbers(origins) == Range(Total(passes), appended) && Total(passes) <= appended
            && origins == p.removed + kept
    ensures var t := Total(passes + [p]);
      && Total(passes) <= t <= appended
      && Numbers(p.removed) == Range(Total(passes), t) && Numbers([None] + kept) == Range(t, appended)
  {
    NumbersConcat(p.removed, kept);
    RangeSplit(Total(passes), appended, Numbers(p.removed), Numbers(kept));
    assert (passes + [p])[..|passes|] == passes;
    assert ([None] + kept)[1..] == kept;
    assert Numbers([None] + kept) == [] + Numbers(kept);
  }

  lemma PassKeeps(l: Ledger, p: Pass, kept: seq<Option<nat>>, messages: seq<Message>)
    requires Accounted(l) && l.origins == p.removed + kept && |messages| == 1 + |kept|
    ensures Accounted(Ledger(messages, [None] + kept, l.appended, l.passes + [p]))
  {
    var passes := l.passes + [p];
    PassRecorded(l.passes, p, l.origins, kept, l.appended);
    hide Numbers, Total;
    forall i | 0 <= i < |passes|
        ensures Numbers(passes[i].removed) == Range(Total(passes[..i]), Total(passes[..i + 1])) {
      if i < |l.passes| {
        assert passes[..i] == l.passes[..i] && passes[..i + 1] == l.passes[..i + 1];
      } else {
        assert passes[..i] == l.passes && passes[..i + 1] == passes;
      }
    }
  }

  lemma StepKeeps(l: Ledger, step: Step)
    requires Accounted(l) && Enabled(l, step)
    ensures Accounted(Next(l, step))
  {
    match step {
      case Appends(m) => AppendKeeps(l, m);
      case Compresses(x) =>
        assert |l.origins| == |l.messages|;
        hide AutoCompress, Accounted, Next;
        PassShape(l.messages, x);
        var o := AutoCompress(l.messages, x);
        NextAfterPass(l, x);
        if o.replaced {
          var n := Next(l, step);
          PassKeeps(l, n.passes[|l.passes|], l.origins[o.cut..], o.messages);
        } else {
          AccountedAlike(l, o.messages);
        }
    }
  }

  lemma AccountedAlike(l: Ledger, messages: seq<Message>)
    requires Accounted(l) && |messages| == |l.messages|
    ensures Accounted(l.(messages := messages))
  {
    hide Numbers, Total, Range;
  }

  /** The ledger after a pass. */
  lemma NextAfterPass(l: Ledger, x: Inputs)
    requires |l.origins| == |l.messages| && |x.tokens| == |l.messages|
    ensures var o := AutoCompress(l.messages, x);
      var n := Next(l, Compresses(x));
      && o.cut <= |l.origins|
      && (!o.replaced ==> n == l.(messages := o.messages))
      && (o.replaced ==>
           && |n.passes| == |l.passes| + 1 && l.origins == n.passes[|l.passes|].removed + l.origins[o.cut..]
           && n == Ledger(o.messages, [None] + l.origins[o.cut..], l.appended, l.passes + [n.passes[|l.passes|]]))
  {
    hide AutoCompress, HeadRecognised, CutPoint, Given, Asks;
    PassShape(l.messages, x);
  }

  predicate Executable(l: Ledger, steps: seq<Step>)
    requires |l.origins| == |l.messages|
    decreases |steps|
  {
    steps == [] || (Enabled(l, steps[0]) && Executable(Next(l, steps[0]), steps[1..]))
  }

  function After(l: Ledger, steps: seq<Step>): (n: Ledger)
    requires |l.origins| == |l.messages| && Executable(l, steps)
    ensures |n.origins| == |n.messages|
    decreases |steps|
  {
    if steps == [] then l else After(Next(l, steps[0]), steps[1..])
  }

  /**
   For every run of appends and passes, successful or not: each message is cut away by exactly one pass or still
   there, in order.
   */
  lemma {:induction false} EveryMessageIsAccountedFor(l: Ledger, steps: seq<Step>)
    requires Accounted(l) && Executable(l, steps)
    ensures Accounted(After(l, steps))
    decreases |steps|
  {
    if steps != [] {
      StepKeeps(l, steps[0]);
      hide Next, Accounted;
      EveryMessageIsAccountedFor(Next(l, steps[0]), steps[1..]);
    }
  }

  // ---------------------------------------------------------------- each message is summarised at most once

  /** A summarised pass was given what it cut away, whole or without the head. */
  predicate GivenWhatWasCut(p: Pass) {
    p.summarised ==> p.given == p.removed || (p.removed != [] && p.given == p.removed[1..])
  }

  lemma StepGives(l: Ledger, step: Step)
    requires |l.origins| == |l.messages| && Enabled(l, step) && forall i :: 0 <= i < |l.passes| ==>
            GivenWhatWasCut(l.passes[i])
    ensures var n := Next(l, step); forall i :: 0 <= i < |n.passes| ==> GivenWhatWasCut(n.passes[i])
  {
    if step.Compresses? && AutoCompress(l.messages, step.inputs).summarised {
      SuccessfulPassPartitions(l.messages, step.inputs);
    }
    hide AutoCompress, CutPoint;
  }

  lemma {:induction false} PassesGive(l: Ledger, steps: seq<Step>)
    requires |l.origins| == |l.messages| && Executable(l, steps) && forall i :: 0 <= i < |l.passes| ==>
            GivenWhatWasCut(l.passes[i])
    ensures var n := After(l, steps); forall i :: 0 <= i < |n.passes| ==> GivenWhatWasCut(n.passes[i])
    decreases |steps|
  {
    hide GivenWhatWasCut, Next;
    if steps == [] {
      assert After(l, steps) == l;
    } else {
      StepGives(l, steps[0]);
      PassesGive(Next(l, steps[0]), steps[1..]);
      assert After(l, steps) == After(Next(l, steps[0]), steps[1..]);
    }
  }

  lemma {:induction false} TotalGrows(passes: seq<Pass>, i: nat, j: nat)
    requires i <= j <= |passes|
    ensures Total(passes[..i]) <= Total(passes[..j])
    decreases j - i
  {
    hide Numbers;
    if i < j {
      TotalGrows(passes, i, j - 1);
      assert passes[..j][..j - 1] == passes[..j - 1];
    }
  }

  lemma {:induction false} NumbersOfTail(origins: seq<Option<nat>>, v: nat)
    requires origins != [] && v in Numbers(origins[1..])
    ensures v in Numbers(origins)
  {
  }

  const EMPTY: Ledger := Ledger([], [], 0, [])

  /**
   Over any run from an empty conversation, no message is given as raw history to two passes whose summaries are
   used.
   */
  lemma SummarisedAtMostOnce(steps: seq<Step>, i: nat, j: nat, v: nat)
    requires Executable(EMPTY, steps)
    requires var l := After(EMPTY, steps);
      i < j < |l.passes| && l.passes[i].summarised && l.passes[j].summarised && v in Numbers(l.passes[i].given)
    ensures v !in Numbers(After(EMPTY, steps).passes[j].given)
  {
    hide Next, Executable, Numbers, Total;
    EmptyAccounted();
    EveryMessageIsAccountedFor(EMPTY, steps);
    PassesGive(EMPTY, steps);
    var l := After(EMPTY, steps);
    hide After;
    InsideRemoved(l.passes[i], v);
    RangeMember(Total(l.passes[..i]), Total(l.passes[..i + 1]), v);
    TotalGrows(l.passes, i + 1, j);
    if v in Numbers(l.passes[j].given) {
      InsideRemoved(l.passes[j], v);
      RangeMember(Total(l.passes[..j]), Total(l.passes[..j + 1]), v);
    }
  }

  lemma RangeMember(a: nat, b: nat, v: nat)
    requires v in Range(a, b)
    ensures a <= v < b
  {
  }

  lemma EmptyAccounted()
    ensures Accounted(EMPTY)
  {
  }

  lemma InsideRemoved(p: Pass, v: nat)
    requires GivenWhatWasCut(p) && p.summarised && v in Numbers(p.given)
    ensures v in Numbers(p.removed)
  {
    hide Numbers;
    if p.given != p.removed {
      NumbersOfTail(p.removed, v);
    }
  }

  // -------------------------------------------------------------- a summary is summarised again only if it was buried

  /** The only summary in the conversation is a recognised one at its head. */
  ghost predicate Headed(l: Ledger) {
    && |l.origins| == |l.messages|
    && (forall i :: 1 <= i < |l.origins| ==> l.origins[i].Some?)
    && (l.origins != [] && l.origins[0].None? ==> HeadRecognised(l.messages))
  }

  /** The model gave no usable summary. */
  predicate Unanswered(x: Inputs) {
    x.answer.None? || Trim(x.answer.value) == ""
  }

  /**
   A pass over a summary at the head and more, to which the model gives no usable answer while even the
   wider window covers everything: it cuts nothing and puts its summary in front of the one there.
   */
  predicate Buries(l: Ledger, step: Step)
    requires Enabled(l, step) && |l.origins| == |l.messages|
  {
    && step.Compresses? && !step.inputs.cancelled && Unanswered(step.inputs)
    && l.origins != [] && l.origins[0].None?
    && CutPoint(l.messages, step.inputs.tokens, step.inputs.keep) >= 2
    && CutPoint(l.messages, step.inputs.tokens, FALLBACK_KEEP_RECENT_TOKENS) == 0
  }

  /**
   Behind a recognised head a pass fails if and only if there is more to summarise and the model gives no usable
   answer.
   */
  lemma FailsIff(messages: seq<Message>, x: Inputs)
    requires |x.tokens| == |messages| && Asks(messages, x) && HeadRecognised(messages)
    ensures !AutoCompress(messages, x).summarised <==> CutPoint(messages, x.tokens, x.keep) >= 2 && Unanswered(x)
  {
    DetectionIsOfHead(messages, CutPoint(messages, x.tokens, x.keep));
    hide CutPoint, DetectPriorSummary, DiscardSummary, Trim, Normalized, AppendInstructions;
  }

  lemma AppendHeads(l: Ledger, m: Message)
    requires Headed(l)
    ensures Headed(Next(l, Appends(m)))
  {
    hide HeadRecognised;
    var n := Next(l, Appends(m));
    if l.messages != [] {
      assert n.messages[..1] == l.messages[..1];
      HeadOnly(l.messages, n.messages);
    }
  }

  lemma HeadOnly(a: seq<Message>, b: seq<Message>)
    requires a != [] && b != [] && a[..1] == b[..1]
    ensures HeadRecognised(a) == HeadRecognised(b)
  {
    hide DetectPriorSummary;
  }

  lemma FailedCut(l: Ledger, x: Inputs)
    requires |x.tokens| == |l.messages| && Asks(l.messages, x) && !AutoCompress(l.messages, x).summarised
    ensures var o := AutoCompress(l.messages, x);
      o.replaced && (o.cut == 0 <==> CutPoint(l.messages, x.tokens, FALLBACK_KEEP_RECENT_TOKENS) == 0)
  {
    hide CutPoint, NewSummary, DetectPriorSummary, Question;
  }

  /** The conversation after any pass that put a summary at its head. */
  lemma ReplacedHeads(l: Ledger, cut: nat, messages: seq<Message>, passes: seq<Pass>)
    requires Headed(l) && cut <= |l.origins| && |messages| == 1 + |l.origins| - cut && HeadRecognised(messages)
    ensures Headed(Ledger(messages, [None] + l.origins[cut..], l.appended, passes))
            <==> !(cut == 0 && l.origins != [] && l.origins[0].None?)
  {
    hide HeadRecognised;
    var n := [None] + l.origins[cut..];
    forall i | 1 <= i < |n| ensures n[i] == l.origins[cut + i - 1] {
    }
    if cut == 0 && l.origins != [] {
      assert n[1] == l.origins[0];
    }
  }

  lemma UnreplacedHeads(l: Ledger, messages: seq<Message>)
    requires Headed(l) && |messages| == |l.messages| && (HeadRecognised(l.messages) ==> HeadRecognised(messages))
    ensures Headed(l.(messages := messages))
  {
    hide HeadRecognised;
  }

  /** The exact condition: a step leaves the only summary at the head if and only if it does not bury one. */
  lemma HeadedIff(l: Ledger, step: Step)
    requires Headed(l) && Enabled(l, step)
    ensures Headed(Next(l, step)) <==> !Buries(l, step)
  {
    match step {
      case Appends(m) => AppendHeads(l, m);
      case Compresses(x) =>
        hide AutoCompress, HeadRecognised, CutPoint;
        var o := AutoCompress(l.messages, x);
        PassShape(l.messages, x);
        BuriesIff(l, x);
        hide Asks, Buries, Headed, Given;
        if o.replaced {
          ReplacedHeads(l, o.cut, o.messages, Next(l, step).passes);
        } else {
          UnreplacedHeads(l, o.messages);
        }
    }
  }

  lemma BuriesIff(l: Ledger, x: Inputs)
    requires Headed(l) && |x.tokens| == |l.messages|
    ensures var o := AutoCompress(l.messages, x);
      Buries(l, Compresses(x)) <==> o.replaced && o.cut == 0 && l.origins != [] && l.origins[0].None?
  {
    var o := AutoCompress(l.messages, x);
    PassShape(l.messages, x);
    if Asks(l.messages, x) && !o.summarised {
      FailedCut(l, x);
    }
    if o.summarised {
      SuccessfulPassPartitions(l.messages, x);
    }
    if Asks(l.messages, x) && l.origins[0].None? {
      FailsIff(l.messages, x);
    }
    hide AutoCompress, HeadRecognised, CutPoint, DetectPriorSummary, Unanswered;
  }

  predicate RawOnly(given: seq<Option<nat>>) {
    forall i :: 0 <= i < |given| ==> given[i].Some?
  }

  lemma AskedOfHeaded(messages: seq<Message>, x: Inputs)
    requires |x.tokens| == |messages| && Asks(messages, x) && HeadRecognised(messages)
    ensures !AutoCompress(messages, x).asked.Primary?
  {
    DetectionIsOfHead(messages, CutPoint(messages, x.tokens, x.keep));
    hide CutPoint, DetectPriorSummary, NewSummary;
  }

  lemma PrimaryIsUnheaded(messages: seq<Message>, x: Inputs)
    requires |x.tokens| == |messages| && AutoCompress(messages, x).asked.Primary?
    ensures messages != [] && !HeadRecognised(messages)
  {
    PassShape(messages, x);
    if HeadRecognised(messages) {
      AskedOfHeaded(messages, x);
    }
    hide AutoCompress, HeadRecognised, CutPoint;
  }

  lemma GivenIsRaw(l: Ledger, asked: Asked, shown: nat)
    requires Headed(l) && shown <= |l.origins| && (asked.Primary? ==> l.messages != [] && !HeadRecognised(l.messages))
    ensures RawOnly(Given(asked, l.origins[..shown]))
  {
    hide HeadRecognised;
  }

  /** As long as the only summary is at the head, a pass gives the model appended messages only. */
  lemma HeadedGivesRawOnly(l: Ledger, step: Step)
    requires Headed(l) && Enabled(l, step)
    requires forall i :: 0 <= i < |l.passes| ==> RawOnly(l.passes[i].given)
    ensures var n := Next(l, step); forall i :: 0 <= i < |n.passes| ==> RawOnly(n.passes[i].given)
  {
    if step.Compresses? {
      var x := step.inputs;
      hide AutoCompress, HeadRecognised, CutPoint, Asks, RawOnly, Given;
      PassShape(l.messages, x);
      var o := AutoCompress(l.messages, x);
      if o.asked.Primary? {
        PrimaryIsUnheaded(l.messages, x);
      }
      GivenIsRaw(l, o.asked, if o.summarised then o.cut else CutPoint(l.messages, x.tokens, x.keep));
      hide Headed;
    }
  }

  predicate NoneBuries(l: Ledger, steps: seq<Step>)
    requires |l.origins| == |l.messages| && Executable(l, steps)
    decreases |steps|
  {
    steps == [] || (!Buries(l, steps[0]) && NoneBuries(Next(l, steps[0]), steps[1..]))
  }

  /** Over any run in which no pass buries a summary, no summary is ever summarised again. */
  lemma {:induction false} SummariesAreNotSummarised(l: Ledger, steps: seq<Step>)
    requires Headed(l) && Executable(l, steps) && NoneBuries(l, steps)
    requires forall i :: 0 <= i < |l.passes| ==> RawOnly(l.passes[i].given)
    ensures var n := After(l, steps); Headed(n) && forall i :: 0 <= i < |n.passes| ==> RawOnly(n.passes[i].given)
    decreases |steps|
  {
    if steps != [] {
      HeadedIff(l, steps[0]);
      HeadedGivesRawOnly(l, steps[0]);
      hide Next, Headed, RawOnly, Buries;
      SummariesAreNotSummarised(Next(l, steps[0]), steps[1..]);
    }
  }

  /** A buried summary is raw history to the next pass that cuts behind it. */
  lemma BuriedSummaryIsSummarisedAgain(l: Ledger, step: Step, next: Step)
    requires Headed(l) && Enabled(l, step) && Buries(l, step)
    requires var n := Next(l, step);
      next.Compresses? && Enabled(n, next) && Asks(n.messages, next.inputs)
        && CutPoint(n.messages, next.inputs.tokens, next.inputs.keep) >= 2
    ensures var o := AutoCompress(Next(l, step).messages, next.inputs);
      o.asked.Merge? && o.asked.delta != [] && o.asked.delta[0] == l.messages[0] && HeadRecognised(l.messages)
  {
    var n := Next(l, step);
    var x := next.inputs;
    FailsIff(l.messages, step.inputs);
    FailedCut(l, step.inputs);
    FailedPassKeepsMore(l.messages, step.inputs);
    PassShape(l.messages, step.inputs);
    assert l.messages[0].User? by { HeadIsUser(l.messages); }
    assert l.messages[0..] == l.messages;
    hide HeadRecognised;
    assert n.messages[1] == l.messages[0];
    MergesBehindHead(n.messages, x);
  }

  lemma HeadIsUser(messages: seq<Message>)
    requires HeadRecognised(messages)
    ensures messages[0].User?
  {
    hide TrimStart, Contains, FirstText;
  }

  lemma MergesBehindHead(messages: seq<Message>, x: Inputs)
    requires |x.tokens| == |messages| && Asks(messages, x) && HeadRecognised(messages)
            && CutPoint(messages, x.tokens, x.keep) >= 2
    ensures var o := AutoCompress(messages, x);
      o.asked.Merge? && o.asked.delta != [] && o.asked.delta[0] == messages[1]
  {
    DetectionIsOfHead(messages, CutPoint(messages, x.tokens, x.keep));
    hide CutPoint, DetectPriorSummary, NewSummary;
  }
}
