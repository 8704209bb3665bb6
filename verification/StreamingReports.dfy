/**
 What the translator reports besides texts: when usage is sent, which turn a message or a block of
 reasoning belongs to, and in which order the events of one agent event leave.
 */
module StreamingReports {
  import opened Prelude
  import opened RunManager
  import opened Streaming

  // ---------------------------------------------------------------- usage

  /** The usage an agent event carries to a report: an update's, unless its branch returns early, or an end's. */
  function Carried(t: Translator, e: AgentEvent): Option<Usage> {
    match e
    case Update(TextDelta(delta), _, partial) => if t.lastDelta == Some(delta) then None else partial
    case Update(ThinkingEnd(content, _), _, partial) => if Blank(content) then None else partial
    case Update(_, _, partial) => partial
    case MessageEnd(Assistant(_, usage)) => Some(usage)
    case _ => None
  }

  predicate AllZero(u: Usage) {
    u.input == 0 && u.output == 0 && u.cacheRead == 0 && u.cacheWrite == 0 && u.total == 0
  }

  function Reports(sent: seq<StreamEvent>): nat {
    if sent == [] then 0 else (if sent[0].UsageUpdated? then 1 else 0) + Reports(sent[1..])
  }

  lemma {:induction false} ReportsConcat(a: seq<StreamEvent>, b: seq<StreamEvent>)
    ensures Reports(a + b) == Reports(a) + Reports(b)
  {
    if a == [] {
      assert a + b == b;
    } else {
      assert (a + b)[1..] == a[1..] + b;
      ReportsConcat(a[1..], b);
    }
  }

  /**
   Usage is reported, once, exactly when the event carries one that is not all zero and not the one reported
   last; it is then the one reported last.
   */
  lemma UsageReportedIff(t: Translator, e: AgentEvent, mint: Id)
    ensures var r, u := Translate(t, e, mint), Carried(t, e);
      var reported := u.Some? && !AllZero(u.value) && t.lastUsage != u;
      Reports(r.sent) == (if reported then 1 else 0) && r.t.lastUsage == if reported then u else t.lastUsage
  {
    hide Blank;
    ReportsIn(t, e, mint);
  }

  lemma ReportsIn(t: Translator, e: AgentEvent, mint: Id)
    ensures var u := Carried(t, e);
      Reports(Translate(t, e, mint).sent) == if u.Some? && ReportsUsage(t, u.value) then 1 else 0
  {
    hide Blank, ReportsUsage;
    assert forall x: StreamEvent :: Reports([x]) == if x.UsageUpdated? then 1 else 0;
    forall x: StreamEvent, y: StreamEvent ensures Reports([x, y]) == Reports([x]) + Reports([y]) {
      assert [x, y] == [x] + [y];
      ReportsConcat([x], [y]);
    }
    forall x: StreamEvent, y: StreamEvent, z: StreamEvent
        ensures Reports([x, y, z]) == Reports([x, y]) + Reports([z]) {
      assert [x, y, z] == [x, y] + [z];
      ReportsConcat([x, y], [z]);
    }
    assert Reports([]) == 0;
    SentIs(t, e, mint);
    hide Translate;
  }

  // ---------------------------------------------------------------- what is sent, in order

  function Report(t: Translator, u: Option<Usage>): seq<StreamEvent> {
    if u.Some? && ReportsUsage(t, u.value) then [UsageUpdated] else []
  }

  /** The events of one agent event, in the order they leave: a report comes last behind an update, first at an end. */
  lemma SentIs(t: Translator, e: AgentEvent, mint: Id)
    ensures Translate(t, e, mint).sent ==
            match e
            case TurnRetrying => [RunRetrying]
            case Update(TextDelta(x), _, partial) =>
              if t.lastDelta == Some(x) then []
              else [MessageDelta(if t.current.Some? then t.current.value else mint, x)] + Report(t, partial)
            case Update(Retrying, _, partial) =>
              (if t.current.Some? then [MessageDiscarded(t.current.value)] else []) + [RequestRetrying]
                + Report(t, partial)
            case Update(ThinkingDelta(x), turn, partial) =>
              [ReasoningUpdated(if t.currentReasoning.Some? then t.currentReasoning.value
                                else mint, t.buffer + x, None, Some(turn))]
              + Report(t, partial)
            case Update(ThinkingEnd(content, signature), turn, partial) =>
              if Blank(content) then []
              else
                [ReasoningUpdated(if t.currentReasoning.Some? then t.currentReasoning.value
                                  else mint, content, signature, Some(turn))]
                + Report(t, partial)
            case Update(ThinkingStart, _, partial) => Report(t, partial)
            case Update(OtherUpdate, _, partial) => Report(t, partial)
            case MessageEnd(Assistant(text, usage)) =>
              Report(t, Some(usage))
              + if text == "" then []
                else [MessageCompleted(if t.current.Some? then t.current.value else mint, text, t.turnIndex)]
            case MessageEnd(OtherRole) => []
            case CompletedDiscarded => if t.lastCompleted.Some? then [MessageDiscarded(t.lastCompleted.value)] else []
            case OtherAgentEvent => []
  {
    hide Blank, ReportsUsage;
    PartialIndependent(t, e);
  }

  lemma PartialIndependent(t: Translator, e: AgentEvent)
    ensures forall u: Translator, x: Usage :: u.lastUsage == t.lastUsage ==> ReportsUsage(u, x) == ReportsUsage(t, x)
  {
  }

  // ---------------------------------------------------------------- turns, over every run

  /** The translator after agent events, each with the id that would be fresh. */
  function Translated(t: Translator, events: seq<(AgentEvent, Id)>): Translator {
    if events == [] then t
    else
      var last := events[|events| - 1];
      Translate(Translated(t, events[..|events| - 1]), last.0, last.1).t
  }

  /** The turn of the last message update. */
  function LastTurn(events: seq<(AgentEvent, Id)>): Option<nat> {
    if events == [] then None
    else if events[|events| - 1].0.Update? then Some(events[|events| - 1].0.turn)
    else LastTurn(events[..|events| - 1])
  }

  const UNUSED: Translator := Translator(None, None, None, "", None, None, None)

  lemma {:induction false} TurnIs(events: seq<(AgentEvent, Id)>)
    ensures Translated(UNUSED, events).turnIndex == LastTurn(events)
  {
    if events != [] {
      var older, last := events[..|events| - 1], events[|events| - 1];
      TurnIs(older);
      TurnAfter(Translated(UNUSED, older), last.0, last.1);
      hide Translate;
    }
  }

  lemma TurnAfter(t: Translator, e: AgentEvent, mint: Id)
    ensures Translate(t, e, mint).t.turnIndex == if e.Update? then Some(e.turn) else t.turnIndex
  {
    hide Blank, ReportsUsage;
  }

  /**
   Over every run: a message that ends with a text is sent as completed under the turn of the last update before
   its end.
   */
  lemma CompletedUnderLastTurn(events: seq<(AgentEvent, Id)>, text: string, usage: Usage, mint: Id)
    requires text != ""
    ensures var t := Translated(UNUSED, events);
      var sent := Translate(t, MessageEnd(Assistant(text, usage)), mint).sent;
      sent != [] && sent[|sent| - 1] == MessageCompleted(OrMint(t.current, mint), text, LastTurn(events))
  {
    TurnIs(events);
    SentIs(Translated(UNUSED, events), MessageEnd(Assistant(text, usage)), mint);
    hide Translate, Translated, ReportsUsage;
  }
}
