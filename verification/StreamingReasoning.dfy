/**
 A reasoning block through the whole pipeline, from its first delta to its end, with any other events
 in between: its row shows the thinking up to the first event that completes reasoning, or all of it,
 and exactly the final thinking with its signature after an end that nothing came before.
 */
module StreamingReasoning {
  import opened Prelude
  import opened RunManager
  import opened Streaming
  import opened StreamingSync
  import opened StreamingPipeline

  // ---------------------------------------------------------------- what a reader should see of a block

  /** What a move puts on the channel. */
  function Put(p: Pipe, m: Move): seq<StreamEvent> {
    match m
    case Observes(e, mint) => Translate(p.t, e, mint).sent
    case Sends(e) => [e]
    case Delivers => []
  }

  /** The move puts an event on the channel that completes reasoning. */
  predicate Cuts(p: Pipe, m: Move) {
    exists i :: 0 <= i < |Put(p, m)| && CompletesReasoning(Put(p, m)[i])
  }

  /** The agent events after which the translator is at no block. */
  predicate EndsBlock(m: Move) {
    m.Observes? && (m.event.MessageEnd?
                    || (m.event.Update? && (m.event.update.ThinkingStart? || m.event.update.ThinkingEnd?)))
  }

  predicate Thinks(m: Move) {
    m.Observes? && m.event.Update? && m.event.update.ThinkingDelta?
  }

  /** The text of a block and the turn of its last delta. */
  datatype Block = Block(text: string, turn: nat)

  function Extended(b: Block, m: Move): Block {
    if Thinks(m) then Block(b.text + m.event.update.delta, m.event.turn) else b
  }

  /** Some move cuts the block off. */
  predicate CutOffBy(p: Pipe, run: Id, moves: seq<Move>, spare: Id)
    requires Wellformed(p.d)
    decreases |moves|
  {
    moves != [] && (Cuts(p, moves[0]) || CutOffBy(Moved(p, run, moves[0], spare), run, moves[1..], spare))
  }

  /** The block with every delta up to the first cut. */
  function UpToCut(p: Pipe, run: Id, moves: seq<Move>, spare: Id, b: Block): Block
    requires Wellformed(p.d)
    decreases |moves|
  {
    if moves == [] || Cuts(p, moves[0]) then b
    else UpToCut(Moved(p, run, moves[0], spare), run, moves[1..], spare, Extended(b, moves[0]))
  }

  /** The block's row, and whether the handler still points at it. */
  predicate RowShows(z: State, run: Id, id: Id, b: Block, cut: bool) {
    && run in z.active && (z.active[run].reasoning == Some(id) <==> !cut)
    && id in z.rows && z.rows[id]
       == Row(Some(run), Reasoning, b.text, if cut then RowCompleted else RowStatus.Streaming, None, Some(b.turn))
  }

  /** The translator is at the block, and its row shows `b`. */
  predicate BlockShown(p: Pipe, run: Id, spare: Id, id: Id, b: Block, cut: bool) {
    && p.t.currentReasoning == Some(id) && (!cut ==> p.t.buffer == b.text)
    && RowShows(Drained(p, run, spare), run, id, b, cut)
  }

  // ---------------------------------------------------------------- one handled event

  /** An event that is neither about the block nor an end of the run. */
  predicate Beside(e: StreamEvent, id: Id) {
    && !Terminal(e) && !e.ReasoningUpdated?
    && (e.MessageDelta? || e.MessageCompleted? ==> e.id != id && !Blank(e.id))
    && (e.MessageDiscarded? ==> e.id != id)
  }

  /** The run is active and streams its reply elsewhere. */
  predicate Elsewhere(s: State, run: Id, id: Id) {
    run in s.active && s.active[run].streaming != Some(id)
  }

  /** The row, the reasoning pointer, and a reply that streams elsewhere. */
  predicate Spares(s: State, t: State, run: Id, id: Id) {
    && Elsewhere(t, run, id) && run in s.active && t.active[run].reasoning == s.active[run].reasoning
    && id in s.rows && id in t.rows && t.rows[id] == s.rows[id]
  }

  lemma ApplyBeside(s: State, run: Id, e: StreamEvent, id: Id, spare: Id)
    requires Elsewhere(s, run, id) && id in s.rows && Beside(e, id)
    ensures Spares(s, Apply(s, run, e, spare).state, run, id)
  {
    hide Blank, FinishRun, OnReasoning, OnDelta, OnCompleted, FinalStatus, ToThreadStatus;
    match e {
      case MessageDelta(m, delta) => DeltaBeside(s, run, m, delta, id, spare);
      case MessageCompleted(m, content, turn) => CompletedBeside(s, run, m, content, turn, id, spare);
      case _ =>
    }
  }

  lemma DeltaBeside(s: State, run: Id, m: Id, delta: string, id: Id, spare: Id)
    requires Elsewhere(s, run, id) && id in s.rows && m != id && !Blank(m)
    ensures Spares(s, OnDelta(s, run, m, delta, spare).state, run, id)
  {
    StreamsBeside(s, run, m, id, spare);
    hide EnsureStreaming, Blank;
  }

  lemma CompletedBeside(s: State, run: Id, m: Id, content: string, turn: Option<nat>, id: Id, spare: Id)
    requires Elsewhere(s, run, id) && id in s.rows && m != id && !Blank(m)
    ensures Spares(s, OnCompleted(s, run, m, content, turn, spare).state, run, id)
  {
    StreamsBeside(s, run, m, id, spare);
    hide EnsureStreaming, Blank, Finalized;
  }

  lemma StreamsBeside(s: State, run: Id, requested: Id, id: Id, spare: Id)
    requires Elsewhere(s, run, id) && id in s.rows && requested != id && !Blank(requested)
    ensures Spares(s, EnsureStreaming(s, run, requested, spare).state, run, id)
  {
    assert RequestedId(requested, spare) == requested;
    hide Blank, RequestedId;
  }

  lemma HandleBeside(s: State, run: Id, e: StreamEvent, id: Id, b: Block, cut: bool, spare: Id)
    requires Elsewhere(s, run, id) && RowShows(s, run, id, b, cut) && Beside(e, id)
    ensures var t := Handle(s, run, e, spare).state;
      Elsewhere(t, run, id) && RowShows(t, run, id, b, cut || CompletesReasoning(e))
  {
    if CompletesReasoning(e) {
      CompleteReasoningEffect(s, run);
      HandledAfterReasoning(s, run, e, spare);
      var c := CompleteReasoning(s, run).state;
      assert Elsewhere(c, run, id) && RowShows(c, run, id, b, true);
      hide Handle, Apply, CompleteReasoning, Beside, CompletesReasoning;
      ApplyBeside(c, run, e, id, spare);
    } else {
      HandledDirectly(s, run, e, spare);
      hide Handle, Apply, Beside, CompletesReasoning;
      ApplyBeside(s, run, e, id, spare);
    }
  }

  lemma {:induction false} DrainBeside(s: State, run: Id, sent: seq<StreamEvent>, id: Id, b: Block, cut: bool,
                                       spare: Id)
    requires Elsewhere(s, run, id) && RowShows(s, run, id, b, cut)
    requires forall i :: 0 <= i < |sent| ==> Beside(sent[i], id)
    ensures var cut' := cut || exists i :: 0 <= i < |sent| && CompletesReasoning(sent[i]);
      RowShows(Drain(s, run, sent, spare), run, id, b, cut')
    decreases |sent|
  {
    hide Handle, Beside, CompletesReasoning, Elsewhere, RowShows;
    if sent != [] {
      var e, rest := sent[0], sent[1..];
      HandleBeside(s, run, e, id, b, cut, spare);
      DrainBeside(Handle(s, run, e, spare).state, run, rest, id, b, cut || CompletesReasoning(e), spare);
      assert forall i :: 1 <= i < |sent| ==> sent[i] == rest[i - 1];
      assert forall i :: 0 <= i < |rest| ==> rest[i] == sent[i + 1];
    }
  }

  /** An update of the block: stored while the handler points at it, lost once it was cut off. */
  lemma UpdateShows(s: State, run: Id, id: Id, text: string, turn: nat, b: Block, cut: bool, spare: Id)
    requires RowShows(s, run, id, b, cut) && !Blank(id)
    ensures RowShows(Handle(s, run, ReasoningUpdated(id, text, None, Some(turn)), spare).state, run, id,
                     if cut then b else Block(text, turn), cut)
  {
    assert RequestedId(id, spare) == id;
    hide Blank, RequestedId, Handle;
    ReasoningHandled(s, run, id, text, None, Some(turn), spare);
    EnsureReasoningEffect(s, run, id);
  }

  lemma FirstUpdateShows(s: State, run: Id, id: Id, text: string, turn: nat, spare: Id)
    requires run in s.active && s.active[run].reasoning != Some(id) && id !in s.rows && !Blank(id)
    ensures RowShows(Handle(s, run, ReasoningUpdated(id, text, None, Some(turn)), spare).state, run, id,
                     Block(text, turn), false)
  {
    assert RequestedId(id, spare) == id;
    hide Blank, RequestedId, Handle;
    ReasoningHandled(s, run, id, text, None, Some(turn), spare);
  }

  // ---------------------------------------------------------------- one move

  /** While the translator is at a block, no reply and no fresh id is the block's, and its id is not blank. */
  lemma BlockApart(p: Pipe, run: Id, spare: Id, id: Id, mint: Id)
    requires PipeInv(p, run, spare) && p.t.currentReasoning == Some(id) && Unissued(mint, p.issued)
    ensures !Blank(id) && mint != id && !Blank(mint) && p.t.current != Some(id) && p.t.lastCompleted != Some(id)
    ensures p.t.current.Some? ==> !Blank(p.t.current.value)
  {
    hide Blank, Handle, ShowsAll, NoOtherReplies;
    InStepCells(p.t, Drained(p, run, spare), run, p.ids, p.issued, p.d);
  }

  lemma StreamsElsewhere(p: Pipe, run: Id, spare: Id, id: Id)
    requires PipeInv(p, run, spare) && p.t.currentReasoning == Some(id)
    ensures !Blank(id) && Elsewhere(Drained(p, run, spare), run, id)
  {
    hide Blank, Handle, ShowsAll, NoOtherReplies;
    InStepCells(p.t, Drained(p, run, spare), run, p.ids, p.issued, p.d);
  }

  lemma PutBeside(p: Pipe, run: Id, spare: Id, id: Id, m: Move)
    requires PipeInv(p, run, spare) && p.t.currentReasoning == Some(id) && Possible(p, m) && !EndsBlock(m)
            && !Thinks(m)
    ensures forall i :: 0 <= i < |Put(p, m)| ==> Beside(Put(p, m)[i], id)
    ensures m.Observes? ==> var t := Translate(p.t, m.event, m.mint).t;
      t.currentReasoning == p.t.currentReasoning && t.buffer == p.t.buffer
  {
    hide PipeInv, Blank, ReportsUsage, Unissued;
    if m.Observes? {
      BlockApart(p, run, spare, id, m.mint);
    }
  }

  lemma PutDrains(p: Pipe, run: Id, m: Move, spare: Id)
    requires Wellformed(p.d)
    ensures Drained(Moved(p, run, m, spare), run, spare) == Drain(Drained(p, run, spare), run, Put(p, m), spare)
  {
    hide Handle, Translate, Advance, Wellformed;
    if !m.Delivers? {
      DrainConcat(p.s, run, p.channel, Put(p, m), spare);
    }
  }

  /** A thinking delta: what is sent, and where the translator is afterwards. */
  lemma DeltaSent(p: Pipe, m: Move, id: Id)
    requires Thinks(m) && id == OrMint(p.t.currentReasoning, m.mint)
    ensures var u := ReasoningUpdated(id, p.t.buffer + m.event.update.delta, None, Some(m.event.turn));
      Put(p, m) == [u] || Put(p, m) == [u, UsageUpdated]
    ensures var t := Translate(p.t, m.event, m.mint).t;
      t.currentReasoning == Some(id) && t.buffer == p.t.buffer + m.event.update.delta
  {
    hide ReportsUsage;
  }

  lemma DeltaDrained(s: State, run: Id, id: Id, text: string, turn: nat, sent: seq<StreamEvent>, b: Block, cut: bool,
                     spare: Id)
    requires var u := ReasoningUpdated(id, text, None, Some(turn)); sent == [u] || sent == [u, UsageUpdated]
    requires var t := Handle(s, run, ReasoningUpdated(id, text, None, Some(turn)), spare).state;
      RowShows(t, run, id, b, cut)
    ensures RowShows(Drain(s, run, sent, spare), run, id, b, cut)
  {
    var u := ReasoningUpdated(id, text, None, Some(turn));
    var t := Handle(s, run, u, spare).state;
    UsageChangesNothing(t, run, spare);
    hide Handle, RowShows;
    if sent == [u] {
      DrainOne(s, run, u, spare);
    } else {
      DrainTwo(s, run, u, UsageUpdated, spare);
    }
  }

  lemma UsageChangesNothing(s: State, run: Id, spare: Id)
    ensures Handle(s, run, UsageUpdated, spare).state == s
  {
  }

  lemma DeltaShown(p: Pipe, run: Id, spare: Id, id: Id, b: Block, cut: bool, m: Move)
    requires PipeInv(p, run, spare) && Wellformed(p.d) && BlockShown(p, run, spare, id, b, cut) && Thinks(m)
    ensures BlockShown(Moved(p, run, m, spare), run, spare, id, if cut then b else Extended(b, m), cut) && !Cuts(p, m)
  {
    hide PipeInv, Handle, Blank, Drained, Translate, Put, RowShows, Advance, Wellformed;
    var z, text := Drained(p, run, spare), p.t.buffer + m.event.update.delta;
    StreamsElsewhere(p, run, spare, id);
    DeltaSent(p, m, id);
    PutDrains(p, run, m, spare);
    UpdateShows(z, run, id, text, m.event.turn, b, cut, spare);
    DeltaDrained(z, run, id, text, m.event.turn, Put(p, m), if cut then b else Block(text, m.event.turn), cut, spare);
  }

  lemma MoveShown(p: Pipe, run: Id, spare: Id, id: Id, b: Block, cut: bool, m: Move)
    requires PipeInv(p, run, spare) && Wellformed(p.d) && BlockShown(p, run, spare, id, b, cut) && Possible(p, m)
            && !EndsBlock(m)
    ensures BlockShown(Moved(p, run, m, spare), run, spare, id, if cut || Cuts(p, m) then b else Extended(b, m), cut
                       || Cuts(p, m))
  {
    if Thinks(m) {
      DeltaShown(p, run, spare, id, b, cut, m);
    } else {
      StreamsElsewhere(p, run, spare, id);
      PutBeside(p, run, spare, id, m);
      PutDrains(p, run, m, spare);
      hide PipeInv, Handle, Blank, Drained, Translate, Put, RowShows, Advance, Wellformed, Beside, Elsewhere,
           EndsBlock;
      DrainBeside(Drained(p, run, spare), run, Put(p, m), id, b, cut, spare);
    }
  }

  // ---------------------------------------------------------------- whole runs

  lemma {:induction false} BlockOverMoves(p: Pipe, run: Id, moves: seq<Move>, spare: Id, id: Id, b: Block, cut: bool)
    requires PipeInv(p, run, spare) && Wellformed(p.d) && AllPossible(p, run, moves, spare)
    requires BlockShown(p, run, spare, id, b, cut) && forall i :: 0 <= i < |moves| ==> !EndsBlock(moves[i])
    ensures BlockShown(AfterMoves(p, run, moves, spare), run, spare, id,
                       if cut then b else UpToCut(p, run, moves, spare, b),
                       cut || CutOffBy(p, run, moves, spare))
    decreases |moves|
  {
    hide PipeInv, Possible, BlockShown, Moved, EndsBlock, Cuts, Extended, Wellformed;
    if moves != [] {
      MoveShown(p, run, spare, id, b, cut, moves[0]);
      MoveKeeps(p, run, moves[0], spare);
      MovedTranscript(p, run, moves[0], spare);
      var rest := moves[1..];
      assert forall i :: 0 <= i < |rest| ==> rest[i] == moves[i + 1];
      var cut' := cut || Cuts(p, moves[0]);
      BlockOverMoves(Moved(p, run, moves[0], spare), run, rest, spare, id,
                     if cut' then b else Extended(b, moves[0]), cut');
    }
  }

  /** At no block, the translator holds no text of one. */
  predicate Tidy(t: Translator) {
    t.currentReasoning.None? ==> t.buffer == ""
  }

  lemma {:induction false} StaysTidy(p: Pipe, run: Id, moves: seq<Move>, spare: Id)
    requires Wellformed(p.d) && Tidy(p.t)
    ensures Tidy(AfterMoves(p, run, moves, spare).t)
    decreases |moves|
  {
    if moves != [] {
      if moves[0].Observes? {
        TranslateTidy(p.t, moves[0].event, moves[0].mint);
      }
      hide Translate, Advance, Wellformed, Handle;
      StaysTidy(Moved(p, run, moves[0], spare), run, moves[1..], spare);
    }
  }

  lemma TranslateTidy(t: Translator, e: AgentEvent, mint: Id)
    requires Tidy(t)
    ensures Tidy(Translate(t, e, mint).t)
  {
    hide ReportsUsage, Blank;
  }

  /** The first delta opens a row of its own for the block. */
  lemma FirstDeltaShown(p: Pipe, run: Id, spare: Id, m: Move)
    requires PipeInv(p, run, spare) && Wellformed(p.d) && Possible(p, m) && Thinks(m) && p.t.currentReasoning.None?
            && p.t.buffer == ""
    ensures BlockShown(Moved(p, run, m, spare), run, spare, m.mint, Block(m.event.update.delta, m.event.turn), false)
  {
    var z, x, id := Drained(p, run, spare), m.event.update.delta, m.mint;
    FreshBlock(p, run, spare, id);
    DeltaSent(p, m, id);
    PutDrains(p, run, m, spare);
    hide PipeInv, Handle, Blank, Drained, Translate, Put, RowShows, Advance, Wellformed;
    assert p.t.buffer + x == x;
    FirstUpdateShows(z, run, id, x, m.event.turn, spare);
    DeltaDrained(z, run, id, x, m.event.turn, Put(p, m), Block(x, m.event.turn), false, spare);
  }

  lemma FreshBlock(p: Pipe, run: Id, spare: Id, mint: Id)
    requires PipeInv(p, run, spare) && Unissued(mint, p.issued)
    ensures var z := Drained(p, run, spare);
      run in z.active && z.active[run].reasoning != Some(mint) && mint !in z.rows && !Blank(mint)
  {
    hide Blank, Handle, ShowsAll, NoOtherReplies, Drained;
  }

  /**
   For every run of the pipeline from its start, and a block that opens at some point of it, with any
   moves after its first delta that do not end it: one row under one id shows the block's deltas in
   order up to the first event that completes reasoning, whoever sent it, and is completed by that
   event; without one it shows all of them and is still streaming.
   */
  lemma ThinkingAccumulates(s: State, run: Id, before: seq<Move>, m: Move, moves: seq<Move>, spare: Id)
    requires Starts(s, run)
    requires var start := Pipe(FRESH, [], s, [], s.rows.Keys, BLANK_TRANSCRIPT);
      var p := AfterMoves(start, run, before, spare);
      && AllPossible(start, run, before, spare)
      && p.t.currentReasoning.None? && Thinks(m) && Possible(p, m)
      && AllPossible(Moved(p, run, m, spare), run, moves, spare) && forall i :: 0 <= i < |moves| ==>
         !EndsBlock(moves[i])
    ensures var p := AfterMoves(Pipe(FRESH, [], s, [], s.rows.Keys, BLANK_TRANSCRIPT), run, before, spare);
      var first := Moved(p, run, m, spare);
      BlockShown(AfterMoves(first, run, moves, spare), run, spare, m.mint,
                 UpToCut(first, run, moves, spare, Block(m.event.update.delta, m.event.turn)),
                   CutOffBy(first, run, moves, spare))
  {
    var start := Pipe(FRESH, [], s, [], s.rows.Keys, BLANK_TRANSCRIPT);
    var p := AfterMoves(start, run, before, spare);
    var first := Moved(p, run, m, spare);
    StartsInStep(s, run, spare);
    hide Starts, PipeInv, AllPossible, AfterMoves, Moved, BlockShown, Possible, EndsBlock;
    MovesKeep(start, run, before, spare);
    StaysTidy(start, run, before, spare);
    MoveKeeps(p, run, m, spare);
    FirstDeltaShown(p, run, spare, m);
    BlockOverMoves(first, run, moves, spare, m.mint, Block(m.event.update.delta, m.event.turn), false);
  }

  /**
   The end of a block: with any thinking its row shows exactly the final text and its signature, unless
   the block was cut off before; then, and without any, the row stays as it was. Either way the
   translator is at no block.
   */
  lemma ThinkingEnds(p: Pipe, run: Id, spare: Id, id: Id, b: Block, cut: bool, content: string,
                     signature: Option<string>, turn: nat,
                     partial: Option<Usage>, mint: Id)
    requires PipeInv(p, run, spare) && Wellformed(p.d) && BlockShown(p, run, spare, id, b, cut)
    ensures var q := Moved(p, run, Observes(Update(ThinkingEnd(content, signature), turn, partial), mint), spare);
      var z := Drained(q, run, spare);
      && q.t.currentReasoning.None? && q.t.buffer == ""
      && id in z.rows && z.rows[id] ==
           (if cut || Blank(content) then Drained(p, run, spare).rows[id]
            else Row(Some(run), Reasoning, content, RowStatus.Streaming, signature, Some(turn)))
  {
    var m := Observes(Update(ThinkingEnd(content, signature), turn, partial), mint);
    var z := Drained(p, run, spare);
    StreamsElsewhere(p, run, spare, id);
    PutDrains(p, run, m, spare);
    EndSent(p, content, signature, turn, partial, mint, id);
    hide PipeInv, Handle, Blank, Drained, Translate, Put, Advance, Wellformed;
    if Blank(content) {
      assert Drain(z, run, [], spare) == z;
    } else {
      var u := ReasoningUpdated(id, content, signature, Some(turn));
      FinalUpdate(z, run, id, content, signature, turn, spare);
      UsageChangesNothing(Handle(z, run, u, spare).state, run, spare);
      DrainOne(z, run, u, spare);
      DrainTwo(z, run, u, UsageUpdated, spare);
    }
  }

  lemma EndSent(p: Pipe, content: string, signature: Option<string>, turn: nat, partial: Option<Usage>, mint: Id,
                id: Id)
    requires p.t.currentReasoning == Some(id)
    ensures var m := Observes(Update(ThinkingEnd(content, signature), turn, partial), mint);
      var u := ReasoningUpdated(id, content, signature, Some(turn));
      && (if Blank(content) then Put(p, m) == [] else Put(p, m) == [u] || Put(p, m) == [u, UsageUpdated])
      && var t := Translate(p.t, m.event, mint).t; t.currentReasoning.None? && t.buffer == ""
  {
    hide ReportsUsage, Blank;
  }

  lemma FinalUpdate(s: State, run: Id, id: Id, content: string, signature: Option<string>, turn: nat, spare: Id)
    requires run in s.active && id in s.rows && !Blank(id)
    ensures var z := Handle(s, run, ReasoningUpdated(id, content, signature, Some(turn)), spare).state;
      id in z.rows && z.rows[id] == if s.active[run].reasoning == Some(id)
                                    then s.rows[id].(content := content, signature := signature,
                                                     turnIndex := Some(turn)) else s.rows[id]
  {
    assert RequestedId(id, spare) == id;
    hide Blank, RequestedId, Handle;
    ReasoningHandled(s, run, id, content, signature, Some(turn), spare);
    EnsureReasoningEffect(s, run, id);
  }
}
