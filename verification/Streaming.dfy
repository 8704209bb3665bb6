/**
 The translator between agent events and runtime events: it owns the ids of the message and of the
 reasoning block being streamed, drops a delta that repeats the one before it, and discards the partial
 message of a failed request. `Translate` says what one agent event does; the class
 `StreamTranslator` holds the cells and changes them in place, sending events as it goes.
 */
module Streaming {
  import opened Prelude
  import Strings
  import opened RunManager

  datatype Usage = Usage(input: nat, output: nat, cacheRead: nat, cacheWrite: nat, total: nat, cost: int)

  datatype AssistantUpdate =
    | TextDelta(delta: string)
    | Retrying
    | ThinkingStart
    | ThinkingDelta(delta: string)
    | ThinkingEnd(content: string, signature: Option<string>)
    | OtherUpdate

  datatype Ended = Assistant(text: string, usage: Usage) | OtherRole

  datatype AgentEvent =
    | TurnRetrying
    | Update(update: AssistantUpdate, turn: nat, partialUsage: Option<Usage>)
    | MessageEnd(message: Ended)
    | CompletedDiscarded
    | OtherAgentEvent

  datatype Translator = Translator(
    current: Option<Id>,
    lastCompleted: Option<Id>,
    currentReasoning: Option<Id>,
    buffer: string,
    turnIndex: Option<nat>,
    lastDelta: Option<string>,
    lastUsage: Option<Usage>)

  /** The cells after an event, and what was sent, in order. */
  datatype Translation = Translation(t: Translator, sent: seq<StreamEvent>)

  predicate Blank(s: string) {
    Strings.Trim(s) == ""
  }

  function OrMint(id: Option<Id>, mint: Id): Id {
    if id.Some? then id.value else mint
  }

  predicate ReportsUsage(t: Translator, u: Usage) {
    t.lastUsage != Some(u) && !(u.total == 0 && u.input == 0 && u.output == 0 && u.cacheRead == 0 && u.cacheWrite == 0)
  }

  function WithUsage(r: Translation, u: Usage): Translation {
    if ReportsUsage(r.t, u) then Translation(r.t.(lastUsage := Some(u)), r.sent + [UsageUpdated]) else r
  }

  function WithPartial(r: Translation, partial: Option<Usage>): Translation {
    if partial.Some? then WithUsage(r, partial.value) else r
  }

  function NoReasoning(t: Translator): Translator {
    t.(currentReasoning := None, buffer := "")
  }

  /** What a message update does before the usage report; `goesOn` is false where the branch returns early. */
  datatype Branch = Branch(r: Translation, goesOn: bool)

  function UpdateBranch(t: Translator, u: AssistantUpdate, mint: Id): Branch {
    match u
    case TextDelta(delta) =>
      if t.lastDelta == Some(delta) then Branch(Translation(t, []), false)
      else
        var id := OrMint(t.current, mint);
        Branch(Translation(t.(lastDelta := Some(delta), current := Some(id)), [MessageDelta(id, delta)]), true)
    case Retrying =>
      if t.current.Some? then
        Branch(Translation(t.(current := None, lastDelta := None),
                           [MessageDiscarded(t.current.value), RequestRetrying]), true)
      else Branch(Translation(t, [RequestRetrying]), true)
    case ThinkingStart => Branch(Translation(NoReasoning(t), []), true)
    case ThinkingDelta(delta) =>
      var id := OrMint(t.currentReasoning, mint);
      Branch(Translation(t.(buffer := t.buffer + delta, currentReasoning := Some(id)),
                         [ReasoningUpdated(id, t.buffer + delta, None, t.turnIndex)]), true)
    case ThinkingEnd(content, signature) =>
      if Blank(content) then Branch(Translation(NoReasoning(t), []), false)
      else
        var id := OrMint(t.currentReasoning, mint);
        Branch(Translation(NoReasoning(t), [ReasoningUpdated(id, content, signature, t.turnIndex)]), true)
    case OtherUpdate => Branch(Translation(t, []), true)
  }

  function TranslateUpdate(t: Translator, u: AssistantUpdate, partial: Option<Usage>, mint: Id): Translation {
    var b := UpdateBranch(t, u, mint);
    if b.goesOn then WithPartial(b.r, partial) else b.r
  }

  function TranslateEnd(t: Translator, message: Ended, mint: Id): Translation {
    match message
    case OtherRole => Translation(NoReasoning(t.(lastDelta := None)), [])
    case Assistant(text, usage) =>
      var r := WithUsage(Translation(t, []), usage);
      if text == "" then r.(t := NoReasoning(r.t.(current := None, lastDelta := None)))
      else
        var id := OrMint(t.current, mint);
        Translation(NoReasoning(r.t.(current := None, lastCompleted := Some(id), lastDelta := None)),
                    r.sent + [MessageCompleted(id, text, t.turnIndex)])
  }

  /** One agent event; `mint` is the id a fresh message or reasoning block would get. */
  function Translate(t: Translator, e: AgentEvent, mint: Id): Translation {
    match e
    case TurnRetrying => Translation(t, [RunRetrying])
    case Update(u, turn, partial) => TranslateUpdate(t.(turnIndex := Some(turn)), u, partial, mint)
    case MessageEnd(message) => TranslateEnd(t, message, mint)
    case CompletedDiscarded =>
      Translation(t, if t.lastCompleted.Some? then [MessageDiscarded(t.lastCompleted.value)] else [])
    case OtherAgentEvent => Translation(t, [])
  }

  // ---------------------------------------------------------------- the cells themselves

  class StreamTranslator {
    var current: Option<Id>
    var lastCompleted: Option<Id>
    var currentReasoning: Option<Id>
    var buffer: string
    var turnIndex: Option<nat>
    var lastDelta: Option<string>
    var lastUsage: Option<Usage>
    var sent: seq<StreamEvent>

    function Cells(): Translator
      reads this
    {
      Translator(current, lastCompleted, currentReasoning, buffer, turnIndex, lastDelta, lastUsage)
    }

    constructor ()
      ensures Cells() == Translator(None, None, None, "", None, None, None) && sent == []
    {
      current, lastCompleted, currentReasoning, buffer := None, None, None, "";
      turnIndex, lastDelta, lastUsage, sent := None, None, None, [];
    }

    method Send(e: StreamEvent)
      modifies this`sent
      ensures sent == old(sent) + [e]
    {
      sent := sent + [e];
    }

    method EnsureMessageId(mint: Id) returns (id: Id)
      modifies this`current
      ensures id == OrMint(old(current), mint) && current == Some(id)
    {
      if current.None? {
        current := Some(mint);
      }
      id := current.value;
    }

    method EnsureReasoningId(mint: Id) returns (id: Id)
      modifies this`currentReasoning
      ensures id == OrMint(old(currentReasoning), mint) && currentReasoning == Some(id)
    {
      if currentReasoning.None? {
        currentReasoning := Some(mint);
      }
      id := currentReasoning.value;
    }

    method TakeOrCreateMessageId(mint: Id) returns (id: Id)
      modifies this`current
      ensures id == OrMint(old(current), mint) && current == None
    {
      id := OrMint(current, mint);
      current := None;
    }

    method ResetReasoning()
      modifies this`currentReasoning, this`buffer
      ensures Cells() == NoReasoning(old(Cells()))
    {
      currentReasoning := None;
      buffer := "";
    }

    method EmitUsageIfChanged(u: Usage)
      modifies this`lastUsage, this`sent
      ensures Translation(Cells(), sent) == WithUsage(Translation(old(Cells()), old(sent)), u)
    {
      if lastUsage == Some(u) {
        return;
      }
      if u.total == 0 && u.input == 0 && u.output == 0 && u.cacheRead == 0 && u.cacheWrite == 0 {
        return;
      }
      lastUsage := Some(u);
      Send(UsageUpdated);
    }

    /** The message-update branch; false when it returned before the usage report. */
    method ApplyUpdate(u: AssistantUpdate, mint: Id) returns (goesOn: bool)
      modifies this
      ensures old(sent) <= sent
      ensures Branch(Translation(Cells(), sent[|old(sent)|..]), goesOn) == UpdateBranch(old(Cells()), u, mint)
    {
      match u {
        case TextDelta(delta) =>
          if lastDelta == Some(delta) {
            return false;
          }
          lastDelta := Some(delta);
          var id := EnsureMessageId(mint);
          Send(MessageDelta(id, delta));
        case Retrying =>
          if current.Some? {
            Send(MessageDiscarded(current.value));
            current := None;
            lastDelta := None;
          }
          Send(RequestRetrying);
        case ThinkingStart =>
          ResetReasoning();
        case ThinkingDelta(delta) =>
          buffer := buffer + delta;
          var id := EnsureReasoningId(mint);
          Send(ReasoningUpdated(id, buffer, None, turnIndex));
        case ThinkingEnd(content, signature) =>
          buffer := content;
          if Blank(content) {
            ResetReasoning();
            return false;
          }
          var id := EnsureReasoningId(mint);
          Send(ReasoningUpdated(id, buffer, signature, turnIndex));
          ResetReasoning();
        case OtherUpdate =>
      }
      return true;
    }

    method HandleAgentEvent(e: AgentEvent, mint: Id)
      modifies this
      ensures Translate(old(Cells()), e, mint).t == Cells()
      ensures sent == old(sent) + Translate(old(Cells()), e, mint).sent
    {
      hide UpdateBranch;
      match e {
        case TurnRetrying =>
          Send(RunRetrying);
        case Update(u, turn, partial) =>
          turnIndex := Some(turn);
          var goesOn := ApplyUpdate(u, mint);
          if goesOn && partial.Some? {
            EmitUsageIfChanged(partial.value);
          }
        case MessageEnd(message) =>
          match message {
            case OtherRole =>
              lastDelta := None;
              ResetReasoning();
            case Assistant(text, usage) =>
              EmitUsageIfChanged(usage);
              if text == "" {
                current := None;
                lastDelta := None;
                ResetReasoning();
                return;
              }
              var id := TakeOrCreateMessageId(mint);
              lastCompleted := Some(id);
              Send(MessageCompleted(id, text, turnIndex));
              lastDelta := None;
              ResetReasoning();
          }
        case CompletedDiscarded =>
          if lastCompleted.Some? {
            Send(MessageDiscarded(lastCompleted.value));
          }
        case OtherAgentEvent =>
      }
    }
  }
}
