/**
 The end of a run in the pipeline: a finishing event behind everything sent so far settles the one
 reply still open, a checkpoint settles nothing, and whatever is sent afterwards is absorbed.
 */
module StreamingEnd {
  import opened Prelude
  import opened RunManager
  import opened Streaming
  import opened StreamingSync
  import opened StreamingPipeline
  import Lifecycle

  /** The transcript as a run-ending event leaves it. */
  function AtEnd(d: Transcript, e: StreamEvent): Transcript
    requires Wellformed(d)
  {
    if d.open && Finishing(e) then
      d.(entries := SetLast(d, Entry(d.entries[|d.entries| - 1].text,
                                     if e.RunFailed? then RowFailed else RowCompleted)))
    else d
  }

  /** What the end leaves: the run is gone, and its replies are the transcript at its end. */
  ghost predicate EndShown(z: State, run: Id, ids: seq<Id>, d: Transcript) {
    run !in z.active && ShowsAll(z, run, ids, d) && NoOtherReplies(z, run, ids)
  }

  lemma CheckpointShown(t: Translator, s: State, run: Id, ids: seq<Id>, issued: set<Id>, d: Transcript, spare: Id)
    requires InStep(t, s, run, ids, issued, d)
    ensures var z := Handle(s, run, RunCheckpointed, spare).state;
      run !in z.active && ShowsAll(z, run, ids, AtEnd(d, RunCheckpointed))
  {
    CheckpointKeepsRows(s, run, spare);
    hide Handle, Shows, Blank, ReasoningRow, ReasoningCell;
  }

  lemma CheckpointKeepsRows(s: State, run: Id, spare: Id)
    ensures var z := Handle(s, run, RunCheckpointed, spare).state; run !in z.active && z.rows == s.rows
  {
  }

  lemma FinishShown(t: Translator, s: State, run: Id, ids: seq<Id>, issued: set<Id>, d: Transcript, e: StreamEvent,
                    spare: Id)
    requires InStep(t, s, run, ids, issued, d) && Finishing(e)
    ensures var z := Handle(s, run, e, spare).state; run !in z.active && ShowsAll(z, run, ids, AtEnd(d, e))
  {
    var a, z := s.active[run], Handle(s, run, e, spare).state;
    PointersApart(t, s, run, ids, issued, d);
    FinishedShown(s, run, e, spare);
    InStepShows(t, s, run, ids, issued, d);
    hide Handle, InStep, Shows, Lifecycle.Settled, Wellformed;
    forall i | 0 <= i < |ids| ensures ids[i] in z.rows && Shows(z.rows[ids[i]], run, AtEnd(d, e).entries[i]) {
      ReplyRow(t, s, run, ids, issued, d, i);
      ReplySettled(a, ids, i, s.rows[ids[i]], run, d, e);
    }
  }

  lemma InStepShows(t: Translator, s: State, run: Id, ids: seq<Id>, issued: set<Id>, d: Transcript)
    requires InStep(t, s, run, ids, issued, d)
    ensures Wellformed(d) && ShowsAll(s, run, ids, d)
  {
  }

  lemma PointersApart(t: Translator, s: State, run: Id, ids: seq<Id>, issued: set<Id>, d: Transcript)
    requires InStep(t, s, run, ids, issued, d)
    ensures run in s.active
    ensures var a := s.active[run];
      && (a.streaming.Some? && a.reasoning.Some? ==> a.streaming != a.reasoning)
      && (a.reasoning.Some? ==> a.reasoning.value in s.rows)
  {
    hide Shows, ShowsAll, Blank, ReasoningCell, Holds, NoRowFor;
  }

  /** One reply row of the run, settled. */
  lemma ReplySettled(a: ActiveRun, ids: seq<Id>, i: nat, r: Row, run: Id, d: Transcript, e: StreamEvent)
    requires Wellformed(d) && i < |ids| == |d.entries| && Shows(r, run, d.entries[i])
    requires a.reasoning != Some(ids[i]) && (a.streaming == Some(ids[i]) <==> d.open && i == |ids| - 1) && Finishing(e)
    ensures Shows(Lifecycle.Settled(a, ids[i], r, e), run, AtEnd(d, e).entries[i])
  {
    hide Lifecycle.SettledReasoning;
  }

  lemma FinishedShown(s: State, run: Id, e: StreamEvent, spare: Id)
    requires run in s.active && Finishing(e)
    requires var a := s.active[run];
      && (a.streaming.Some? && a.reasoning.Some? ==> a.streaming != a.reasoning)
      && (a.reasoning.Some? ==> a.reasoning.value in s.rows)
    ensures var z := Handle(s, run, e, spare).state;
      run !in z.active && Lifecycle.SettledRows(s.rows, z.rows, s.active[run], e)
  {
    var final := FinalStatus(e, CancelRequested(s, run));
    var a := s.active[run];
    hide Handle, FinishRun, FinishedRows, Lifecycle.SettledRows, Lifecycle.SettledReasoning, SetRowStatus;
    Lifecycle.FinishingIs(s, run, e, spare);
    Lifecycle.FinishRunParts(s, run, final);
    Lifecycle.FinishedRowsAre(s.rows, a, e, CancelRequested(s, run));
    Lifecycle.TwoRowsSettle(s.rows, a, e, FinishedRows(s.rows, a, final));
  }

  lemma EndSettles(p: Pipe, run: Id, e: StreamEvent, spare: Id)
    requires PipeInv(p, run, spare) && Terminal(e)
    ensures Wellformed(p.d) && EndShown(Drained(Moved(p, run, Sends(e), spare), run, spare), run, p.ids, AtEnd(p.d, e))
  {
    var z := Drained(p, run, spare);
    InStepCells(p.t, z, run, p.ids, p.issued, p.d);
    hide InStep, Handle, ShowsAll, NoOtherReplies, Wellformed;
    DrainConcat(p.s, run, p.channel, [e], spare);
    DrainOne(z, run, e, spare);
    HandleAddsNoOtherReply(z, run, e, spare, p.ids);
    if Finishing(e) {
      FinishShown(p.t, z, run, p.ids, p.issued, p.d, e, spare);
    } else {
      CheckpointShown(p.t, z, run, p.ids, p.issued, p.d, spare);
    }
  }

  // ---------------------------------------------------------------- after the end

  /** The rows and the active runs are as before. */
  ghost predicate Untouched(s: State, t: State) {
    t.active == s.active && t.rows == s.rows
  }

  lemma {:induction false} LateDrain(s: State, run: Id, sent: seq<StreamEvent>, spare: Id)
    requires run !in s.active
    ensures Untouched(s, Drain(s, run, sent, spare))
    decreases |sent|
  {
    hide Handle;
    if sent != [] {
      Lifecycle.LateEvent(s, run, sent[0], spare);
      LateDrain(Handle(s, run, sent[0], spare).state, run, sent[1..], spare);
    }
  }

  lemma LateMove(p: Pipe, run: Id, m: Move, spare: Id)
    requires Wellformed(p.d) && run !in Drained(p, run, spare).active
    ensures Untouched(Drained(p, run, spare), Drained(Moved(p, run, m, spare), run, spare))
            && Wellformed(Moved(p, run, m, spare).d)
  {
    hide Handle, Translate, Advance, Wellformed;
    var z := Drained(p, run, spare);
    match m {
      case Observes(e, mint) =>
        DrainConcat(p.s, run, p.channel, Translate(p.t, e, mint).sent, spare);
        LateDrain(z, run, Translate(p.t, e, mint).sent, spare);
      case Sends(e) =>
        DrainConcat(p.s, run, p.channel, [e], spare);
        LateDrain(z, run, [e], spare);
      case Delivers =>
    }
  }

  lemma {:induction false} LateMoves(p: Pipe, run: Id, later: seq<Move>, spare: Id)
    requires Wellformed(p.d) && run !in Drained(p, run, spare).active
    ensures Untouched(Drained(p, run, spare), Drained(AfterMoves(p, run, later, spare), run, spare))
    decreases |later|
  {
    hide Moved, Drained, Wellformed;
    if later != [] {
      LateMove(p, run, later[0], spare);
      LateMoves(Moved(p, run, later[0], spare), run, later[1..], spare);
    }
  }

  lemma ShownAlike(s: State, t: State, run: Id, ids: seq<Id>, d: Transcript)
    requires EndShown(s, run, ids, d) && Untouched(s, t)
    ensures EndShown(t, run, ids, d)
  {
    hide Shows;
  }

  /**
   For every run of the pipeline from its start to a run-ending event, put on the channel behind
   whatever is not delivered yet, and every sequence of moves after it: once the channel is drained,
   the rows are the transcript of the agent events up to the end, with its open reply completed, or
   failed when the run failed; after a checkpoint they are that transcript unchanged, an open reply
   still streaming. No later event, from whichever sender, adds or changes a row of any kind.
   */
  lemma EndedRunShowsTheTranscript(s: State, run: Id, moves: seq<Move>, e: StreamEvent, later: seq<Move>, spare: Id)
    requires Starts(s, run) && AllPossible(Pipe(FRESH, [], s, [], s.rows.Keys, BLANK_TRANSCRIPT), run, moves, spare)
    requires Terminal(e)
    ensures var q := AfterMoves(Pipe(FRESH, [], s, [], s.rows.Keys, BLANK_TRANSCRIPT), run, moves, spare);
      var end := Moved(q, run, Sends(e), spare);
      && EndShown(Drained(AfterMoves(end, run, later, spare), run, spare), run, q.ids,
                  AtEnd(AdvanceAll(BLANK_TRANSCRIPT, Observed(moves)), e))
      && Untouched(Drained(end, run, spare), Drained(AfterMoves(end, run, later, spare), run, spare))
  {
    var p := Pipe(FRESH, [], s, [], s.rows.Keys, BLANK_TRANSCRIPT);
    var q := AfterMoves(p, run, moves, spare);
    StartsInStep(s, run, spare);
    hide AllPossible, AfterMoves, PipeInv, Drained, AdvanceAll, ShowsAll, NoOtherReplies, Starts;
    MovesKeep(p, run, moves, spare);
    EndSettles(q, run, e, spare);
    var end := Moved(q, run, Sends(e), spare);
    hide Moved;
    LateMoves(end, run, later, spare);
    ShownAlike(Drained(end, run, spare), Drained(AfterMoves(end, run, later, spare), run, spare), run, q.ids,
               AtEnd(q.d, e));
  }
}
