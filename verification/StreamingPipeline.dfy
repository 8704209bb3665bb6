/**
 Whole runs of the pipeline: agent events translated, other senders' events and deliveries to the
 handler in any interleaving. Main results: the drained rows are the transcript of the agent events,
 and what the transcript says of completed, of retried and of streamed replies.
 */
module StreamingPipeline {
  import opened Prelude
  import opened RunManager
  import opened Streaming
  import opened StreamingSync

  /** The translator, its channel and the handler's state, with the ids in use and the transcript so far. */
  datatype Pipe = Pipe(t: Translator, channel: seq<StreamEvent>, s: State, ids: seq<Id>, issued: set<Id>,
                       d: Transcript)

  datatype Move =
    | Observes(event: AgentEvent, mint: Id)   // the translator handles an agent event
    | Sends(sent: StreamEvent)                // another sender, or the end of the run, puts an event on the channel
    | Delivers                                // the handler takes the oldest event

  predicate Possible(p: Pipe, m: Move) {
    match m
    case Observes(e, mint) => Unissued(mint, p.issued)
    case Sends(e) => Foreign(e) && RowOf(e) !! Strays(p.t, p.d)   // a user message has an id of its own
    case Delivers => p.channel != []
  }

  function Moved(p: Pipe, run: Id, m: Move, spare: Id): Pipe
    requires Wellformed(p.d)
  {
    match m
    case Observes(e, mint) =>
      var r := Translate(p.t, e, mint);
      Pipe(r.t, p.channel + r.sent, p.s, ExtendIds(p.ids, p.d, e, mint), p.issued + {mint}, Advance(p.d, e))
    case Sends(e) => p.(channel := p.channel + [e], issued := p.issued + RowOf(e))
    case Delivers =>
      if p.channel == [] then p
      else p.(channel := p.channel[1..], s := Handle(p.s, run, p.channel[0], spare).state)
  }

  /** The handler's state once the channel is drained. */
  function Drained(p: Pipe, run: Id, spare: Id): State {
    Drain(p.s, run, p.channel, spare)
  }

  /** Every reply row of the run is one of `ids`. */
  ghost predicate NoOtherReplies(s: State, run: Id, ids: seq<Id>) {
    forall j :: j in s.rows && s.rows[j].runId == Some(run) && s.rows[j].kind == Reply ==> j in ids
  }

  ghost predicate PipeInv(p: Pipe, run: Id, spare: Id) {
    var z := Drained(p, run, spare);
    InStep(p.t, z, run, p.ids, p.issued, p.d) && NoOtherReplies(z, run, p.ids)
  }

  // ---------------------------------------------------------------- no reply row from anywhere else

  predicate ForReply(e: StreamEvent, ids: seq<Id>) {
    (e.MessageDelta? || e.MessageCompleted?) ==> e.id in ids && !Blank(e.id)
  }

  lemma CompleteReasoningAddsNoReply(s: State, run: Id, ids: seq<Id>)
    requires NoOtherReplies(s, run, ids)
    ensures NoOtherReplies(CompleteReasoning(s, run).state, run, ids)
  {
  }

  lemma EnsureReasoningAddsNoReply(s: State, run: Id, id: Id, ids: seq<Id>)
    requires NoOtherReplies(s, run, ids)
    ensures NoOtherReplies(EnsureReasoning(s, run, id).state, run, ids)
  {
    CompleteReasoningAddsNoReply(s, run, ids);
    hide CompleteReasoning;
  }

  lemma EnsureStreamingAddsOne(s: State, run: Id, id: Id, mint: Id, ids: seq<Id>)
    requires NoOtherReplies(s, run, ids) && id in ids && !Blank(id)
    ensures NoOtherReplies(EnsureStreaming(s, run, id, mint).state, run, ids)
  {
    assert RequestedId(id, mint) == id;
    hide Blank, RequestedId;
  }

  lemma FinishingAddsNoReply(rows: map<Id, Row>, a: ActiveRun, status: RunStatus, j: Id)
    ensures var t := FinishedRows(rows, a, status);
      j in t ==> j in rows && t[j].runId == rows[j].runId && t[j].kind == rows[j].kind
  {
    hide DiscardsReasoning;
  }

  lemma ApplyAddsNoOtherReply(s: State, run: Id, e: StreamEvent, mint: Id, ids: seq<Id>)
    requires NoOtherReplies(s, run, ids) && ForReply(e, ids)
    ensures NoOtherReplies(Apply(s, run, e, mint).state, run, ids)
  {
    if e.MessageDelta? || e.MessageCompleted? {
      StreamingAddsOne(s, run, e, mint, ids);
    } else if e.ReasoningUpdated? {
      ReasoningAddsNoReply(s, run, e, mint, ids);
    } else if Finishing(e) {
      FinishAddsNoReply(s, run, e, mint, ids);
    } else {
      hide Blank, FinishRun, OnDelta, OnCompleted, OnReasoning;
    }
  }

  lemma StreamingAddsOne(s: State, run: Id, e: StreamEvent, mint: Id, ids: seq<Id>)
    requires NoOtherReplies(s, run, ids) && ForReply(e, ids) && (e.MessageDelta? || e.MessageCompleted?)
    ensures NoOtherReplies(Apply(s, run, e, mint).state, run, ids)
  {
    hide Blank, EnsureStreaming, RequestedId;
    EnsureStreamingAddsOne(s, run, e.id, mint, ids);
  }

  lemma ReasoningAddsNoReply(s: State, run: Id, e: StreamEvent, mint: Id, ids: seq<Id>)
    requires NoOtherReplies(s, run, ids) && e.ReasoningUpdated?
    ensures NoOtherReplies(Apply(s, run, e, mint).state, run, ids)
  {
    hide EnsureReasoning, RequestedId;
    EnsureReasoningAddsNoReply(s, run, RequestedId(e.id, mint), ids);
  }

  lemma FinishAddsNoReply(s: State, run: Id, e: StreamEvent, mint: Id, ids: seq<Id>)
    requires NoOtherReplies(s, run, ids) && Finishing(e)
    ensures NoOtherReplies(Apply(s, run, e, mint).state, run, ids)
  {
    hide FinishedRows;
    if run in s.active {
      forall j ensures var t := FinishedRows(s.rows, s.active[run], FinalStatus(e, CancelRequested(s, run)));
        j in t ==> j in s.rows && t[j].runId == s.rows[j].runId && t[j].kind == s.rows[j].kind {
        FinishingAddsNoReply(s.rows, s.active[run], FinalStatus(e, CancelRequested(s, run)), j);
      }
    }
  }

  lemma HandleAddsNoOtherReply(s: State, run: Id, e: StreamEvent, mint: Id, ids: seq<Id>)
    requires NoOtherReplies(s, run, ids) && ForReply(e, ids)
    ensures NoOtherReplies(Handle(s, run, e, mint).state, run, ids)
  {
    hide Apply, CompleteReasoning, ForReply, CompletesReasoning, Terminal;
    CompleteReasoningAddsNoReply(s, run, ids);
    var c := if CompletesReasoning(e) then CompleteReasoning(s, run) else Outcome(s, true);
    ApplyAddsNoOtherReply(c.state, run, e, mint, ids);
  }

  lemma {:induction false} DrainAddsNoOtherReply(s: State, run: Id, sent: seq<StreamEvent>, spare: Id, ids: seq<Id>)
    requires NoOtherReplies(s, run, ids) && forall i :: 0 <= i < |sent| ==> ForReply(sent[i], ids)
    ensures NoOtherReplies(Drain(s, run, sent, spare), run, ids)
    decreases |sent|
  {
    hide Handle, ForReply, NoOtherReplies;
    if sent != [] {
      HandleAddsNoOtherReply(s, run, sent[0], spare, ids);
      DrainAddsNoOtherReply(Handle(s, run, sent[0], spare).state, run, sent[1..], spare, ids);
    }
  }

  /** The agent events that write to a reply. */
  predicate Writes(t: Translator, e: AgentEvent) {
    || (e.Update? && e.update.TextDelta? && t.lastDelta != Some(e.update.delta))
    || (e.MessageEnd? && e.message.Assistant? && e.message.text != "")
  }

  lemma SentNames(t: Translator, e: AgentEvent, mint: Id)
    ensures var sent := Translate(t, e, mint).sent;
      forall i :: 0 <= i < |sent| && (sent[i].MessageDelta? || sent[i].MessageCompleted?) ==>
        sent[i].id == OrMint(t.current, mint) && Writes(t, e)
  {
    hide Blank, ReportsUsage;
  }

  /** A message event goes to a reply of the transcript, or names an id that no row gets. */
  lemma SentForReplies(t: Translator, s: State, run: Id, ids: seq<Id>, issued: set<Id>, d: Transcript, e: AgentEvent,
                       mint: Id)
    requires InStep(t, s, run, ids, issued, d) && Unissued(mint, issued)
    ensures Wellformed(d) && !Blank(OrMint(t.current, mint))
    ensures var id, u := OrMint(t.current, mint), Translate(t, e, mint).t;
      && (Writes(t, e) ==> id in ExtendIds(ids, d, e, mint) || id in Strays(u, Advance(d, e)))
      && var sent := Translate(t, e, mint).sent;
         forall i :: 0 <= i < |sent| ==>
             ForReply(sent[i], ExtendIds(ids, d, e, mint) + if Writes(t, e) then [id] else [])
  {
    hide InStep, Blank, NoRowFor, ReasoningCell, Translate, Writes, Strays, Holds, Wellformed, ExtendIds, Advance;
    InStepCells(t, s, run, ids, issued, d);
    OpenReply(t, s, run, ids, issued, d, mint);
    var id := OrMint(t.current, mint);
    SentNames(t, e, mint);
    if Writes(t, e) {
      WritesNames(t, ids, d, e, mint);
      var all := ExtendIds(ids, d, e, mint) + [id];
      assert id == all[|all| - 1];
    }
  }

  lemma WritesNames(t: Translator, ids: seq<Id>, d: Transcript, e: AgentEvent, mint: Id)
    requires Wellformed(d) && |ids| == |d.entries| && Holds(t, ids, d) && Writes(t, e)
    ensures var id, u := OrMint(t.current, mint), Translate(t, e, mint).t;
      id in ExtendIds(ids, d, e, mint) || id in Strays(u, Advance(d, e))
  {
    hide Blank, ReportsUsage;
  }

  // ---------------------------------------------------------------- every move keeps the invariant

  lemma MoveKeeps(p: Pipe, run: Id, m: Move, spare: Id)
    requires PipeInv(p, run, spare) && Possible(p, m)
    ensures Wellformed(p.d) && PipeInv(Moved(p, run, m, spare), run, spare)
  {
    var z := Drained(p, run, spare);
    InStepCells(p.t, z, run, p.ids, p.issued, p.d);
    hide InStep, Handle, Unissued, Foreign, Translate, NoOtherReplies, ForReply, Advance, Strays, NoRowFor, Holds;
    match m {
      case Observes(e, mint) =>
        var r := Translate(p.t, e, mint);
        var ids' := ExtendIds(p.ids, p.d, e, mint);
        AgentStepKeeps(p.t, z, run, p.ids, p.issued, p.d, e, mint, spare);
        DrainConcat(p.s, run, p.channel, r.sent, spare);
        ObservedAddsNoOtherReply(p.t, z, run, p.ids, p.issued, p.d, e, mint, spare);
      case Sends(e) =>
        DrainConcat(p.s, run, p.channel, [e], spare);
        DrainOne(z, run, e, spare);
        ForeignKeeps(p.t, z, run, p.ids, p.issued, p.d, e, spare);
        ForeignForReply(e, p.ids);
        HandleAddsNoOtherReply(z, run, e, spare, p.ids);
      case Delivers =>
    }
  }

  lemma ObservedAddsNoOtherReply(t: Translator, s: State, run: Id, ids: seq<Id>, issued: set<Id>, d: Transcript,
                                 e: AgentEvent, mint: Id, spare: Id)
    requires InStep(t, s, run, ids, issued, d) && Unissued(mint, issued) && NoOtherReplies(s, run, ids)
    ensures Wellformed(d)
    ensures var r := Translate(t, e, mint);
      NoOtherReplies(Drain(s, run, r.sent, spare), run, ExtendIds(ids, d, e, mint))
  {
    var r, id := Translate(t, e, mint), OrMint(t.current, mint);
    SentForReplies(t, s, run, ids, issued, d, e, mint);
    AgentStepKeeps(t, s, run, ids, issued, d, e, mint, spare);
    var ids' := ExtendIds(ids, d, e, mint);
    var all := ids' + if Writes(t, e) then [id] else [];
    var z := Drain(s, run, r.sent, spare);
    InStepCells(r.t, z, run, ids', issued + {mint}, Advance(d, e));
    hide InStep, Handle, Unissued, Translate, ForReply, Advance, Strays, Holds, Writes, ReasoningCell, Wellformed;
    assert ids <= ids' <= all;
    MoreIds(s, run, ids, all);
    DrainAddsNoOtherReply(s, run, r.sent, spare, all);
  }

  lemma MoreIds(s: State, run: Id, ids: seq<Id>, ids': seq<Id>)
    requires NoOtherReplies(s, run, ids) && ids <= ids'
    ensures NoOtherReplies(s, run, ids')
  {
  }

  lemma ForeignForReply(e: StreamEvent, ids: seq<Id>)
    requires Foreign(e)
    ensures ForReply(e, ids)
  {
  }

  // ---------------------------------------------------------------- whole runs

  function Observed(moves: seq<Move>): seq<AgentEvent> {
    if moves == [] then []
    else (if moves[0].Observes? then [moves[0].event] else []) + Observed(moves[1..])
  }

  function AdvanceAll(d: Transcript, events: seq<AgentEvent>): (d': Transcript)
    requires Wellformed(d)
    ensures Wellformed(d')
    decreases |events|
  {
    if events == [] then d else AdvanceAll(Advance(d, events[0]), events[1..])
  }

  predicate AllPossible(p: Pipe, run: Id, moves: seq<Move>, spare: Id)
    requires Wellformed(p.d)
    decreases |moves|
  {
    moves == [] || (Possible(p, moves[0]) && AllPossible(Moved(p, run, moves[0], spare), run, moves[1..], spare))
  }

  function AfterMoves(p: Pipe, run: Id, moves: seq<Move>, spare: Id): (p': Pipe)
    requires Wellformed(p.d)
    ensures Wellformed(p'.d)
    decreases |moves|
  {
    if moves == [] then p else AfterMoves(Moved(p, run, moves[0], spare), run, moves[1..], spare)
  }

  lemma {:induction false} MovesKeep(p: Pipe, run: Id, moves: seq<Move>, spare: Id)
    requires PipeInv(p, run, spare) && Wellformed(p.d) && AllPossible(p, run, moves, spare)
    ensures var q := AfterMoves(p, run, moves, spare);
      PipeInv(q, run, spare) && q.d == AdvanceAll(p.d, Observed(moves))
    decreases |moves|
  {
    hide PipeInv, Possible, Advance;
    if moves != [] {
      var q := Moved(p, run, moves[0], spare);
      MoveKeeps(p, run, moves[0], spare);
      MovesKeep(q, run, moves[1..], spare);
      MovedTranscript(p, run, moves[0], spare);
      hide Moved;
      if moves[0].Observes? {
        var e, rest := moves[0].event, Observed(moves[1..]);
        assert Observed(moves) == [e] + rest && ([e] + rest)[1..] == rest;
      } else {
        assert Observed(moves) == Observed(moves[1..]);
      }
    }
  }

  lemma MovedTranscript(p: Pipe, run: Id, m: Move, spare: Id)
    requires Wellformed(p.d)
    ensures Moved(p, run, m, spare).d == if m.Observes? then Advance(p.d, m.event) else p.d
  {
  }

  const FRESH: Translator := Translator(None, None, None, "", None, None, None)
  const BLANK_TRANSCRIPT: Transcript := Transcript([], false, Silent, None, NoneDone)

  /** A run at its start: nothing sent, no row of its own, neither pointer set. */
  ghost predicate Starts(s: State, run: Id) {
    && run in s.active && s.active[run].streaming.None? && s.active[run].reasoning.None?
    && NoOtherReplies(s, run, [])
  }

  lemma StartsInStep(s: State, run: Id, spare: Id)
    requires Starts(s, run)
    ensures PipeInv(Pipe(FRESH, [], s, [], s.rows.Keys, BLANK_TRANSCRIPT), run, spare)
  {
    assert Drain(s, run, [], spare) == s;
  }

  /**
   For every run of the pipeline from its start: once the channel is drained, the rows named by `ids`
   are the transcript of the agent events entry by entry, the run has no other reply row, the handler
   points at the open reply, and it does so under the translator's own id if and only if that reply, when
   there is one, is the message's own.
   */
  lemma DrainedRowsAreTheTranscript(s: State, run: Id, moves: seq<Move>, spare: Id)
    requires Starts(s, run) && AllPossible(Pipe(FRESH, [], s, [], s.rows.Keys, BLANK_TRANSCRIPT), run, moves, spare)
    ensures var q := AfterMoves(Pipe(FRESH, [], s, [], s.rows.Keys, BLANK_TRANSCRIPT), run, moves, spare);
      var z := Drained(q, run, spare);
      && run in z.active && z.active[run].streaming == OpenId(q.ids, q.d)
      && (z.active[run].streaming == q.t.current <==> Attended(q.d))
      && q.d == AdvanceAll(BLANK_TRANSCRIPT, Observed(moves))
      && ShowsAll(z, run, q.ids, AdvanceAll(BLANK_TRANSCRIPT, Observed(moves)))
      && NoOtherReplies(z, run, q.ids)
  {
    var p := Pipe(FRESH, [], s, [], s.rows.Keys, BLANK_TRANSCRIPT);
    StartsInStep(s, run, spare);
    hide AllPossible, AfterMoves, Handle, Starts;
    MovesKeep(p, run, moves, spare);
    var q := AfterMoves(p, run, moves, spare);
    AgreesIff(q.t, Drained(q, run, spare), run, q.ids, q.issued, q.d);
    hide AdvanceAll, Observed, NoOtherReplies, ShowsAll, Drained, NoRowFor, Holds, ReasoningCell;
  }

  // ---------------------------------------------------------------- what the transcript says of each reply

  lemma {:induction false} AdvanceConcat(d: Transcript, a: seq<AgentEvent>, b: seq<AgentEvent>)
    requires Wellformed(d)
    ensures AdvanceAll(d, a + b) == AdvanceAll(AdvanceAll(d, a), b)
    decreases |a|
  {
    hide Advance;
    if a == [] {
      assert a + b == b;
    } else {
      assert (a + b)[1..] == a[1..] + b;
      AdvanceConcat(Advance(d, a[0]), a[1..], b);
    }
  }

  lemma AdvanceOne(d: Transcript, e: AgentEvent)
    requires Wellformed(d)
    ensures AdvanceAll(d, [e]) == Advance(d, e)
  {
    hide Advance;
    assert [e][1..] == [];
    assert AdvanceAll(Advance(d, e), [e][1..]) == Advance(d, e);
  }

  /** The reply is no longer being streamed. */
  predicate Closed(d: Transcript, i: nat) {
    i < |d.entries| && !(d.open && i == |d.entries| - 1)
  }

  lemma StaysClosed(d: Transcript, e: AgentEvent, i: nat)
    requires Wellformed(d) && Closed(d, i)
    ensures var d' := Advance(d, e);
      && Closed(d', i) && d'.entries[i].text == d.entries[i].text
      && (d'.entries[i].status == d.entries[i].status || d'.entries[i].status == Discarded)
  {
  }

  /** A reply once closed keeps its text over every later run of events, and only a discard can change its status. */
  lemma {:induction false} ClosedRepliesAreFinal(d: Transcript, events: seq<AgentEvent>, i: nat)
    requires Wellformed(d) && Closed(d, i)
    ensures var d' := AdvanceAll(d, events);
      && Closed(d', i) && d'.entries[i].text == d.entries[i].text
      && (d'.entries[i].status == d.entries[i].status || d'.entries[i].status == Discarded)
    decreases |events|
  {
    if events != [] {
      StaysClosed(d, events[0], i);
      hide Advance, Closed;
      ClosedRepliesAreFinal(Advance(d, events[0]), events[1..], i);
    }
  }

  /**
   Text streamed before a request retry lies, for good, in a discarded reply that nothing is added to, if
   the reply is the message's own; a reply it only goes on in stays open, and the retry leaves it as it was.
   */
  lemma RetriedTextIsDiscarded(before: seq<AgentEvent>, turn: nat, partial: Option<Usage>, later: seq<AgentEvent>)
    requires AdvanceAll(BLANK_TRANSCRIPT, before).open
    ensures var d := AdvanceAll(BLANK_TRANSCRIPT, before);
      var retried := AdvanceAll(BLANK_TRANSCRIPT, before + [Update(Retrying, turn, partial)]);
      var d' := AdvanceAll(BLANK_TRANSCRIPT, before + ([Update(Retrying, turn, partial)] + later));
      var i := |d.entries| - 1;
      && 0 <= i
      && (if Attended(d) then Closed(d', i) && d'.entries[i] == Entry(d.entries[i].text, Discarded)
          else retried.open && retried.entries == d.entries)
  {
    var d := AdvanceAll(BLANK_TRANSCRIPT, before);
    var retry := Update(Retrying, turn, partial);
    AdvanceConcat(BLANK_TRANSCRIPT, before, [retry]);
    AdvanceConcat(BLANK_TRANSCRIPT, before, [retry] + later);
    AdvanceConcat(d, [retry], later);
    AdvanceOne(d, retry);
    hide AdvanceAll;
    if Attended(d) {
      ClosedRepliesAreFinal(Advance(d, retry), later, |d.entries| - 1);
    }
  }

  /** Consecutive repeats dropped; `last` is the delta before the first. */
  function NoRepeats(deltas: seq<string>, last: Option<string>): string {
    if deltas == [] then ""
    else if last == Some(deltas[0]) then NoRepeats(deltas[1..], last)
    else deltas[0] + NoRepeats(deltas[1..], Some(deltas[0]))
  }

  function Deltas(deltas: seq<string>, turn: nat, partial: Option<Usage>): seq<AgentEvent> {
    seq(|deltas|, i requires 0 <= i < |deltas| => Update(TextDelta(deltas[i]), turn, partial))
  }

  lemma DeltaAdvances(d: Transcript, x: string, turn: nat, partial: Option<Usage>)
    requires Wellformed(d)
    ensures var d' := Advance(d, Update(TextDelta(x), turn, partial));
      && d' == (if d.last == Some(x) then d else if d.open then Continued(d, x) else Opened(d, x))
      && (d.open || d.last != Some(x) ==> d'.open)
  {
  }

  lemma FirstOfDeltas(deltas: seq<string>, turn: nat, partial: Option<Usage>)
    requires deltas != []
    ensures var events := Deltas(deltas, turn, partial);
      events != [] && events[0] == Update(TextDelta(deltas[0]), turn, partial)
        && events[1..] == Deltas(deltas[1..], turn, partial)
  {
  }

  lemma {:induction false} DeltasContinue(d: Transcript, deltas: seq<string>, turn: nat, partial: Option<Usage>)
    requires Wellformed(d) && d.open
    ensures var d' := AdvanceAll(d, Deltas(deltas, turn, partial));
      && d'.open && |d'.entries| == |d.entries|
      && d'.entries[|d.entries| - 1].text == d.entries[|d.entries| - 1].text + NoRepeats(deltas, d.last)
    decreases |deltas|
  {
    var text := d.entries[|d.entries| - 1].text;
    if deltas == [] {
      assert text + "" == text;
    } else {
      var x, rest := deltas[0], deltas[1..];
      DeltaAdvances(d, x, turn, partial);
      FirstOfDeltas(deltas, turn, partial);
      hide Advance, Deltas, Wellformed;
      DeltasContinue(Advance(d, Update(TextDelta(x), turn, partial)), rest, turn, partial);
      assert (text + x) + NoRepeats(rest, Some(x)) == text + (x + NoRepeats(rest, Some(x)));
    }
  }

  /**
   The text of a message is its deltas in order, without consecutive repeats; the first is never taken for
   a repeat. It makes a reply of its own, or goes on in one that a message ending empty has left open.
   */
  lemma StreamedTextIsTheDeltas(d: Transcript, deltas: seq<string>, turn: nat, partial: Option<Usage>)
    requires Wellformed(d) && d.voice == Silent && deltas != []
    ensures var d' := AdvanceAll(d, Deltas(deltas, turn, partial));
      var kept := if d.open then d.entries[|d.entries| - 1].text else "";
      && d'.open && |d'.entries| == |d.entries| + (if d.open then 0 else 1)
      && d'.entries[|d'.entries| - 1].text == kept + NoRepeats(deltas, None) && deltas[0] <= NoRepeats(deltas, None)
  {
    var x, rest := deltas[0], deltas[1..];
    FirstOfDeltas(deltas, turn, partial);
    DeltaAdvances(d, x, turn, partial);
    hide Advance, Deltas;
    if d.open {
      DeltasContinue(d, deltas, turn, partial);
    } else {
      DeltasContinue(Opened(d, x), rest, turn, partial);
      assert "" + NoRepeats(deltas, None) == NoRepeats(deltas, None);
    }
  }

  /**
   After a non-empty end, the last reply shows exactly the final text, whatever was streamed before; it is
   the one the translator takes for completed if and only if the open reply was the message's own.
   */
  lemma CompletedRowShowsFinalText(s: State, run: Id, moves: seq<Move>, spare: Id, before: seq<AgentEvent>,
                                   text: string, usage: Usage)
    requires Starts(s, run) && AllPossible(Pipe(FRESH, [], s, [], s.rows.Keys, BLANK_TRANSCRIPT), run, moves, spare)
    requires text != "" && Observed(moves) == before + [MessageEnd(Assistant(text, usage))]
    ensures var q := AfterMoves(Pipe(FRESH, [], s, [], s.rows.Keys, BLANK_TRANSCRIPT), run, moves, spare);
      var z := Drained(q, run, spare);
      && q.ids != [] && q.t.current.None? && q.t.lastCompleted.Some?
      && var last := q.ids[|q.ids| - 1];
         && last in z.rows && Shows(z.rows[last], run, Entry(text, RowCompleted))
         && (q.t.lastCompleted == Some(last) <==> Attended(AdvanceAll(BLANK_TRANSCRIPT, before)))
  {
    var p, d := Pipe(FRESH, [], s, [], s.rows.Keys, BLANK_TRANSCRIPT), AdvanceAll(BLANK_TRANSCRIPT, before);
    var q := AfterMoves(p, run, moves, spare);
    hide AllPossible, AfterMoves, PipeInv, Drained, Starts, AdvanceAll, Observed, Advance, Shows, Attended, Wellformed,
         Handle, InStep;
    StartsInStep(s, run, spare);
    MovesKeep(p, run, moves, spare);
    AdvanceLast(before, MessageEnd(Assistant(text, usage)));
    PipeInStep(q, run, spare);
    CompletedLast(q.t, Drained(q, run, spare), run, q.ids, q.issued, d, text, usage);
  }

  lemma AdvanceLast(before: seq<AgentEvent>, e: AgentEvent)
    ensures AdvanceAll(BLANK_TRANSCRIPT, before + [e]) == Advance(AdvanceAll(BLANK_TRANSCRIPT, before), e)
  {
    hide AdvanceAll, Advance;
    AdvanceConcat(BLANK_TRANSCRIPT, before, [e]);
    AdvanceOne(AdvanceAll(BLANK_TRANSCRIPT, before), e);
  }

  lemma PipeInStep(p: Pipe, run: Id, spare: Id)
    requires PipeInv(p, run, spare)
    ensures InStep(p.t, Drained(p, run, spare), run, p.ids, p.issued, p.d)
  {
  }

  lemma CompletedLast(t: Translator, s: State, run: Id, ids: seq<Id>, issued: set<Id>, d: Transcript, text: string,
                      usage: Usage)
    requires text != "" && Wellformed(d)
            && InStep(t, s, run, ids, issued, Advance(d, MessageEnd(Assistant(text, usage))))
    ensures ids != [] && t.current.None? && t.lastCompleted.Some?
    ensures var last := ids[|ids| - 1];
      && last in s.rows && Shows(s.rows[last], run, Entry(text, RowCompleted))
      && (t.lastCompleted == Some(last) <==> Attended(d))
  {
    var d' := Advance(d, MessageEnd(Assistant(text, usage)));
    InStepCells(t, s, run, ids, issued, d');
    ReplyRow(t, s, run, ids, issued, d', |ids| - 1);
    hide InStep, Shows, ReasoningCell;
    if !Attended(d) {
      assert t.lastCompleted.value in Strays(t, d');
    }
  }
}
