/**
 Where translator and handler part: the exact events, and the exact runs, after which they stand at
 different replies, what the rows then show, and the exact condition under which a reasoning update is
 stored.
 */
module StreamingLimits {
  import opened Prelude
  import opened RunManager
  import opened Streaming
  import opened StreamingSync
  import opened StreamingPipeline

  // ---------------------------------------------------------------- the end of a streamed message with empty text

  predicate EndsWith(e: AgentEvent, empty: bool) {
    e.MessageEnd? && e.message.Assistant? && (e.message.text == "" <==> empty)
  }

  /** Text was streamed and the message then ends empty. */
  predicate EndsEmptied(t: Translator, e: AgentEvent) {
    EndsWith(e, true) && t.current.Some?
  }

  /** The same event, seen from the transcript. */
  predicate Empties(d: Transcript, e: AgentEvent) {
    EndsWith(e, true) && d.voice != Silent
  }

  lemma AttendedIff(d: Transcript, e: AgentEvent)
    requires Wellformed(d)
    ensures Attended(Advance(d, e)) <==> if Attended(d) then !Empties(d, e) else EndsWith(e, false)
  {
  }

  lemma EmptiesIff(t: Translator, ids: seq<Id>, d: Transcript, e: AgentEvent)
    requires Wellformed(d) && |ids| == |d.entries| && Holds(t, ids, d)
    ensures EndsEmptied(t, e) <==> Empties(d, e)
  {
  }

  /**
   The exact condition, for one agent event, translated and drained: where handler and translator stand at
   the same reply they still do if and only if the event does not end a streamed message with empty text;
   where they do not, they do again if and only if it ends a message with text.
   */
  lemma InSyncIff(t: Translator, s: State, run: Id, ids: seq<Id>, issued: set<Id>, d: Transcript, e: AgentEvent,
                  mint: Id, spare: Id)
    requires InStep(t, s, run, ids, issued, d) && Unissued(mint, issued)
    ensures var r := Translate(t, e, mint);
      var z := Drain(s, run, r.sent, spare);
      && run in s.active && run in z.active
      && (z.active[run].streaming == r.t.current <==>
          if s.active[run].streaming == t.current then !EndsEmptied(t, e) else EndsWith(e, false))
  {
    var r := Translate(t, e, mint);
    InStepCells(t, s, run, ids, issued, d);
    AgreesIff(t, s, run, ids, issued, d);
    AgentStepKeeps(t, s, run, ids, issued, d, e, mint, spare);
    AgreesIff(r.t, Drain(s, run, r.sent, spare), run, ExtendIds(ids, d, e, mint), issued + {mint}, Advance(d, e));
    AttendedIff(d, e);
    EmptiesIff(t, ids, d, e);
    hide Handle, Translate, Unissued, InStep, Holds, Advance, EndsEmptied, EndsWith, Empties, Attended, Wellformed,
         NoRowFor, ReasoningCell;
  }

  // ---------------------------------------------------------------- whole runs

  predicate Agrees(p: Pipe, run: Id, spare: Id) {
    var z := Drained(p, run, spare); run in z.active && z.active[run].streaming == p.t.current
  }

  /** Translator and drained handler stand at the same reply before and after every move. */
  predicate AgreesThroughout(p: Pipe, run: Id, moves: seq<Move>, spare: Id)
    requires Wellformed(p.d)
    decreases |moves|
  {
    Agrees(p, run, spare) && (moves == [] || AgreesThroughout(Moved(p, run, moves[0], spare), run, moves[1..], spare))
  }

  /** No message of the run streams text and then ends empty. */
  predicate NoneEmptied(d: Transcript, events: seq<AgentEvent>)
    requires Wellformed(d)
    decreases |events|
  {
    events == [] || (!Empties(d, events[0]) && NoneEmptied(Advance(d, events[0]), events[1..]))
  }

  lemma PipeAgreesIff(p: Pipe, run: Id, spare: Id)
    requires PipeInv(p, run, spare)
    ensures Wellformed(p.d) && (Agrees(p, run, spare) <==> Attended(p.d))
  {
    var z := Drained(p, run, spare);
    InStepCells(p.t, z, run, p.ids, p.issued, p.d);
    AgreesIff(p.t, z, run, p.ids, p.issued, p.d);
    hide InStep, Drained, NoOtherReplies, Attended, NoRowFor, Holds, ReasoningCell;
  }

  lemma ObservedNext(moves: seq<Move>)
    requires moves != []
    ensures var rest := Observed(moves[1..]);
      if moves[0].Observes? then
        Observed(moves) != [] && Observed(moves)[0] == moves[0].event && Observed(moves)[1..] == rest
      else Observed(moves) == rest
  {
  }

  /**
   The exact condition, for every run from any point where they agree: they agree throughout if and only if no
   message streams text and ends empty.
   */
  lemma {:induction false} AgreesThroughoutIff(p: Pipe, run: Id, moves: seq<Move>, spare: Id)
    requires Wellformed(p.d) && PipeInv(p, run, spare) && AllPossible(p, run, moves, spare) && Attended(p.d)
    ensures AgreesThroughout(p, run, moves, spare) <==> NoneEmptied(p.d, Observed(moves))
    decreases |moves|
  {
    PipeAgreesIff(p, run, spare);
    if moves != [] {
      var m, q := moves[0], Moved(p, run, moves[0], spare);
      MoveKeeps(p, run, m, spare);
      MovedTranscript(p, run, m, spare);
      PipeAgreesIff(q, run, spare);
      ObservedNext(moves);
      if m.Observes? {
        AttendedIff(p.d, m.event);
      }
      hide PipeInv, Possible, Advance, Moved, Agrees, Attended, Empties, Observed, Wellformed;
      if Attended(q.d) {
        AgreesThroughoutIff(q, run, moves[1..], spare);
      }
    }
  }

  /** From the start of a run: the condition is one on the agent events alone. */
  lemma NeverPartsIff(s: State, run: Id, moves: seq<Move>, spare: Id)
    requires Starts(s, run) && AllPossible(Pipe(FRESH, [], s, [], s.rows.Keys, BLANK_TRANSCRIPT), run, moves, spare)
    ensures AgreesThroughout(Pipe(FRESH, [], s, [], s.rows.Keys, BLANK_TRANSCRIPT), run, moves, spare)
       <==> NoneEmptied(BLANK_TRANSCRIPT, Observed(moves))
  {
    StartsInStep(s, run, spare);
    hide PipeInv, AllPossible, AgreesThroughout, NoneEmptied, Observed, Starts;
    AgreesThroughoutIff(Pipe(FRESH, [], s, [], s.rows.Keys, BLANK_TRANSCRIPT), run, moves, spare);
  }

  /** Discarding an id that has no row, and announcing the retry, adds no row. */
  lemma StrayDiscard(s: State, run: Id, id: Id, spare: Id)
    requires run in s.active && s.active[run].streaming != Some(id) && id !in s.rows
    ensures id !in Drain(s, run, [MessageDiscarded(id), RequestRetrying], spare).rows
  {
    DrainTwo(s, run, MessageDiscarded(id), RequestRetrying, spare);
    hide Handle, Drain;
    AbsentDiscard(s, run, id, spare);
    ForeignEffect(Handle(s, run, MessageDiscarded(id), spare).state, run, RequestRetrying, spare);
  }

  /**
   After such an end the next message is written into the old row, and a retry of it discards nothing:
   what was streamed before the retry stays in a row that is still streaming, and no row ever has the
   new message's id.
   */
  lemma EmptiedEndMergesMessages(t: Translator, s: State, run: Id, ids: seq<Id>, issued: set<Id>, d: Transcript,
                                 usage: Usage,
                                 x: string, turn: nat, m1: Id, m2: Id, m3: Id, spare: Id)
    requires InStep(t, s, run, ids, issued, d) && d.voice != Silent
    requires Unissued(m1, issued) && Unissued(m2, issued + {m1}) && Unissued(m3, issued + {m1} + {m2})
    ensures ids != [] && |ids| == |d.entries|
    ensures var r1 := Translate(t, MessageEnd(Assistant("", usage)), m1);
      var r2 := Translate(r1.t, Update(TextDelta(x), turn, None), m2);
      var r3 := Translate(r2.t, Update(Retrying, turn, None), m3);
      var z := Drain(Drain(Drain(s, run, r1.sent, spare), run, r2.sent, spare), run, r3.sent, spare);
      var prior := ids[|ids| - 1];
      && m2 !in z.rows
      && prior in z.rows && Shows(z.rows[prior], run, Entry(d.entries[|d.entries| - 1].text + x, Streaming))
  {
    var e1, e2, e3 := MessageEnd(Assistant("", usage)), Update(TextDelta(x), turn, None), Update(Retrying, turn, None);
    InStepCells(t, s, run, ids, issued, d);
    var d1, r1 := Hushed(d), Translate(t, e1, m1);
    var z1 := Drain(s, run, r1.sent, spare);
    AgentStepKeeps(t, s, run, ids, issued, d, e1, m1, spare);
    assert Advance(d, e1) == d1 && ExtendIds(ids, d, e1, m1) == ids;
    InStepCells(r1.t, z1, run, ids, issued + {m1}, d1);
    MergedReply(r1.t, z1, run, ids, issued + {m1}, d1, x, turn, m2, m3, spare);
  }

  lemma MergedReply(t: Translator, s: State, run: Id, ids: seq<Id>, issued: set<Id>, d: Transcript,
                    x: string, turn: nat, m2: Id, m3: Id, spare: Id)
    requires InStep(t, s, run, ids, issued, d) && d.voice == Silent && d.open
    requires Unissued(m2, issued) && Unissued(m3, issued + {m2})
    ensures ids != [] && |ids| == |d.entries|
    ensures var r2 := Translate(t, Update(TextDelta(x), turn, None), m2);
      var r3 := Translate(r2.t, Update(Retrying, turn, None), m3);
      var z := Drain(Drain(s, run, r2.sent, spare), run, r3.sent, spare);
      var prior := ids[|ids| - 1];
      && m2 !in z.rows
      && prior in z.rows && Shows(z.rows[prior], run, Entry(d.entries[|d.entries| - 1].text + x, Streaming))
  {
    var e2, e3 := Update(TextDelta(x), turn, None), Update(Retrying, turn, None);
    var r2 := Translate(t, e2, m2);
    var r3 := Translate(r2.t, e3, m3);
    var z2 := Drain(s, run, r2.sent, spare);
    InStepCells(t, s, run, ids, issued, d);
    var d2, d3 := Continued(d, x), Hushed(Continued(d, x));
    assert t.current.None? && t.lastDelta.None?;
    assert r2.t.current == Some(m2) && r3.sent == [MessageDiscarded(m2), RequestRetrying] by { hide Handle, InStep; }
    AgentStepKeeps(t, s, run, ids, issued, d, e2, m2, spare);
    assert Advance(d, e2) == d2 && ExtendIds(ids, d, e2, m2) == ids;
    InStepCells(r2.t, z2, run, ids, issued + {m2}, d2);
    AgentStepKeeps(r2.t, z2, run, ids, issued + {m2}, d2, e3, m3, spare);
    assert Advance(d2, e3) == d3 && ExtendIds(ids, d2, e3, m3) == ids;
    ReplyRow(r3.t, Drain(z2, run, r3.sent, spare), run, ids, issued + {m2} + {m3}, d3, |ids| - 1);
    ReplyRow(r2.t, z2, run, ids, issued + {m2}, d2, |ids| - 1);
    assert m2 in Strays(r2.t, d2);
    hide InStep, Translate, Handle, Drain, Wellformed, Holds, Strays;
    StrayDiscard(z2, run, m2, spare);
  }

  // ---------------------------------------------------------------- reasoning updates

  /**
   The exact condition: an update of a reasoning block is stored if and only if the handler points at its row,
   or no row has its id.
   */
  lemma ReasoningStoredIff(s: State, run: Id, id: Id, text: string, signature: Option<string>, turn: Option<nat>,
                           spare: Id)
    requires run in s.active && !Blank(id) && (s.active[run].reasoning == Some(id) ==> id in s.rows)
    ensures var o := Handle(s, run, ReasoningUpdated(id, text, signature, turn), spare);
      && (o.ok <==> s.active[run].reasoning == Some(id) || id !in s.rows)
      && (o.ok ==> id in o.state.rows && o.state.rows[id].content == text)
      && (!o.ok ==> id in o.state.rows && o.state.rows[id] == s.rows[id])
  {
    assert RequestedId(id, spare) == id;
    hide Blank, RequestedId, Handle;
    ReasoningHandled(s, run, id, text, signature, turn, spare);
    CompleteReasoningEffect(s, run);
    hide CompleteReasoning;
  }

  /**
   Any event of another sender that completes reasoning, landing between two updates of one block, cuts
   the block off: the row is completed with the text so far, and the second update is lost, whatever it
   carries.
   */
  lemma InterruptedReasoningIsLost(s: State, run: Id, id: Id, a: string, b: string, signature: Option<string>,
                                   turn: Option<nat>,
                                   between: StreamEvent, spare: Id)
    requires run in s.active && s.active[run].reasoning != Some(id) && !Blank(id) && id !in s.rows
    requires Foreign(between) && CompletesReasoning(between)
    ensures var m := Drain(s, run, [ReasoningUpdated(id, a, None, turn), between], spare);
      var o := Handle(m, run, ReasoningUpdated(id, b, signature, turn), spare);
      && !o.ok && id in o.state.rows && o.state.rows[id].content == a && o.state.rows[id].status == RowCompleted
  {
    DrainTwo(s, run, ReasoningUpdated(id, a, None, turn), between, spare);
    hide Handle, Drain, Blank, Foreign, CompletesReasoning;
    ReasoningStoredIff(s, run, id, a, None, turn, spare);
    ReasoningEffect(s, run, id, a, None, turn, spare);
    var s1 := Handle(s, run, ReasoningUpdated(id, a, None, turn), spare).state;
    PointsAtBlock(s, run, id, a, turn, spare);
    CutOff(s1, run, id, between, spare);
    ReasoningStoredIff(Handle(s1, run, between, spare).state, run, id, b, signature, turn, spare);
  }

  lemma PointsAtBlock(s: State, run: Id, id: Id, text: string, turn: Option<nat>, spare: Id)
    requires run in s.active && s.active[run].reasoning != Some(id) && !Blank(id) && id !in s.rows
    ensures var t := Handle(s, run, ReasoningUpdated(id, text, None, turn), spare).state;
      run in t.active && t.active[run].reasoning == Some(id)
  {
    assert RequestedId(id, spare) == id;
    hide Blank, RequestedId, Handle;
    ReasoningHandled(s, run, id, text, None, turn, spare);
  }

  lemma CutOff(s: State, run: Id, id: Id, between: StreamEvent, spare: Id)
    requires run in s.active && s.active[run].reasoning == Some(id) && id in s.rows
    requires Foreign(between) && CompletesReasoning(between)
    ensures var t := Handle(s, run, between, spare).state;
      && run in t.active && t.active[run].reasoning == None
      && id in t.rows && t.rows[id] == s.rows[id].(status := RowCompleted)
  {
    HandledAfterReasoning(s, run, between, spare);
    var c := CompleteReasoning(s, run).state;
    assert run in c.active && c.active[run].reasoning == None && id in c.rows
        && c.rows[id] == s.rows[id].(status := RowCompleted);
    hide Handle, CompleteReasoning, Apply;
    ForeignApplied(c, run, between, spare);
  }
}
