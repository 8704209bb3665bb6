/**
 The translator feeding the handler through the channel. A transcript, kept from the agent events
 alone and free of any id, says what replies a reader should see; at every point of every run the
 rows, once the channel is drained, are exactly that transcript, and the handler points at its open
 reply.
 */
module StreamingSync {
  import opened Prelude
  import opened RunManager
  import opened Streaming

  // ---------------------------------------------------------------- the transcript

  datatype Entry = Entry(text: string, status: RowStatus)

  /** The message the translator is at: none, the open reply's own, or one without a reply of its own. */
  datatype Voice = Silent | Own | Adrift

  /** The message completed last: none, that of the reply at a place, or one without a reply of its own. */
  datatype Done = NoneDone | DoneAt(place: nat) | DoneAdrift

  /**
   The replies so far, in the order they were opened. When `open`, the last one is still to be completed;
   `last` is the delta a repeat of which would be dropped. Open and silent is what a message leaves that
   streams text and ends empty; the next message then goes on in the same reply.
   */
  datatype Transcript = Transcript(entries: seq<Entry>, open: bool, voice: Voice, last: Option<string>, done: Done)

  predicate Wellformed(d: Transcript) {
    && (d.open ==> d.entries != [] && d.entries[|d.entries| - 1].status == Streaming)
    && (d.voice != Silent ==> d.open)
    && (d.voice == Silent ==> d.last.None?)
    && (d.done.DoneAt? ==> d.done.place < |d.entries| && !(d.open && d.done.place == |d.entries| - 1))
  }

  function SetLast(d: Transcript, e: Entry): seq<Entry>
    requires d.entries != []
  {
    d.entries[|d.entries| - 1 := e]
  }

  function Spoken(d: Transcript): Voice {
    if d.voice == Silent then (if d.open then Adrift else Own) else d.voice
  }

  function Continued(d: Transcript, x: string): Transcript
    requires d.entries != []
  {
    d.(entries := SetLast(d, Entry(d.entries[|d.entries| - 1].text + x, Streaming)), voice := Spoken(d),
       last := Some(x))
  }

  function Opened(d: Transcript, x: string): Transcript {
    d.(entries := d.entries + [Entry(x, Streaming)], open := true, voice := Own, last := Some(x))
  }

  function Hushed(d: Transcript): Transcript {
    d.(voice := Silent, last := None)
  }

  /** A retry discards the open reply if it is the message's own, and nothing otherwise. */
  function Retried(d: Transcript): Transcript
    requires Wellformed(d)
  {
    if d.voice == Own then
      Hushed(d.(entries := SetLast(d, d.entries[|d.entries| - 1].(status := Discarded)), open := false))
    else Hushed(d)
  }

  /** A message that ends with text completes the open reply, whoever's it is, or one of its own. */
  function Concluded(d: Transcript, text: string): Transcript
    requires Wellformed(d)
  {
    if d.open then
      Transcript(SetLast(d, Entry(text, RowCompleted)), false, Silent, None,
                 if d.voice == Own then DoneAt(|d.entries| - 1) else DoneAdrift)
    else Transcript(d.entries + [Entry(text, RowCompleted)], false, Silent, None, DoneAt(|d.entries|))
  }

  function Withdrawn(d: Transcript): Transcript
    requires Wellformed(d)
  {
    if d.done.DoneAt? then
      d.(entries := d.entries[d.done.place := d.entries[d.done.place].(status := Discarded)])
    else d
  }

  function Advance(d: Transcript, e: AgentEvent): (d': Transcript)
    requires Wellformed(d)
    ensures Wellformed(d')
    ensures |d.entries| <= |d'.entries| <= |d.entries| + 1
  {
    match e
    case Update(TextDelta(x), _, _) =>
      if d.last == Some(x) then d else if d.open then Continued(d, x) else Opened(d, x)
    case Update(Retrying, _, _) => Retried(d)
    case MessageEnd(Assistant(text, _)) => if text == "" then Hushed(d) else Concluded(d, text)
    case MessageEnd(OtherRole) => d.(last := None)
    case CompletedDiscarded => Withdrawn(d)
    case _ => d
  }

  // ---------------------------------------------------------------- draining the channel

  /** Every event of the channel handled, in order. */
  function Drain(s: State, run: Id, channel: seq<StreamEvent>, mint: Id): State
    decreases |channel|
  {
    if channel == [] then s else Drain(Handle(s, run, channel[0], mint).state, run, channel[1..], mint)
  }

  lemma {:induction false} DrainConcat(s: State, run: Id, a: seq<StreamEvent>, b: seq<StreamEvent>, mint: Id)
    ensures Drain(s, run, a + b, mint) == Drain(Drain(s, run, a, mint), run, b, mint)
    decreases |a|
  {
    if a == [] {
      assert a + b == b;
    } else {
      assert (a + b)[1..] == a[1..] + b;
      hide Handle;
      DrainConcat(Handle(s, run, a[0], mint).state, run, a[1..], b, mint);
    }
  }

  lemma DrainOne(s: State, run: Id, e: StreamEvent, mint: Id)
    ensures Drain(s, run, [e], mint) == Handle(s, run, e, mint).state
  {
    hide Handle;
    assert [e][1..] == [];
    assert Drain(Handle(s, run, e, mint).state, run, [e][1..], mint) == Handle(s, run, e, mint).state;
  }

  lemma DrainTwo(s: State, run: Id, e: StreamEvent, f: StreamEvent, mint: Id)
    ensures Drain(s, run, [e, f], mint) == Handle(Handle(s, run, e, mint).state, run, f, mint).state
  {
    hide Handle;
    assert [e, f] == [e] + [f];
    DrainConcat(s, run, [e], [f], mint);
    DrainOne(s, run, e, mint);
    DrainOne(Handle(s, run, e, mint).state, run, f, mint);
  }

  // ---------------------------------------------------------------- what one handled event does to one run

  /**
   Between s and t the run stays active with the given streaming pointer; rows differ at most at `touched` and
   at the reasoning row.
   */
  ghost predicate Effect(s: State, t: State, run: Id, streaming: Option<Id>, touched: set<Id>) {
    && run in s.active && run in t.active && t.active[run].streaming == streaming
    && (forall j :: j in s.rows ==> j in t.rows)
    && (forall j :: j in t.rows ==> j in s.rows || j in touched)
    && (forall j :: j in s.rows && j !in touched && s.active[run].reasoning != Some(j) ==> t.rows[j] == s.rows[j])
  }

  lemma CompleteReasoningEffect(s: State, run: Id)
    requires run in s.active
    ensures var o := CompleteReasoning(s, run);
      && o.ok && Effect(s, o.state, run, s.active[run].streaming, {}) && o.state.active[run].reasoning == None
  {
  }

  lemma HandledAfterReasoning(s: State, run: Id, e: StreamEvent, mint: Id)
    requires run in s.active && CompletesReasoning(e)
    ensures Handle(s, run, e, mint).state == Apply(CompleteReasoning(s, run).state, run, e, mint).state
  {
    hide Apply, CompleteReasoning;
    CompleteReasoningEffect(s, run);
  }

  /** The row a message event goes to: the one the pointer stands at, else the one it names. */
  function Pointed(s: State, run: Id, id: Id): Id
    requires run in s.active
  {
    if s.active[run].streaming.Some? then s.active[run].streaming.value else id
  }

  /** Nothing stands in the way of writing to that row. */
  predicate Writable(s: State, run: Id, id: Id) {
    run in s.active && !Blank(id) && (s.active[run].streaming.Some? <==> Pointed(s, run, id) in s.rows)
  }

  lemma EnsureStreamingEffect(s: State, run: Id, id: Id, mint: Id)
    requires Writable(s, run, id)
    ensures var o, row := EnsureStreaming(s, run, id, mint), Pointed(s, run, id);
      && o.ok && Effect(s, o.state, run, Some(row), {row}) && o.state.active[run].reasoning == s.active[run].reasoning
      && row in o.state.rows && o.state.rows[row] == (if row in s.rows then s.rows[row] else NewRow(run, Reply))
      && o.state.active[run].lastCompleted == if row in s.rows then s.active[run].lastCompleted else None
  {
    assert RequestedId(id, mint) == id;
    hide RequestedId, Blank;
  }

  lemma OnDeltaEffect(s: State, run: Id, id: Id, delta: string, mint: Id)
    requires Writable(s, run, id)
    ensures var t, row := OnDelta(s, run, id, delta, mint).state, Pointed(s, run, id);
      && Effect(s, t, run, Some(row), {row}) && t.active[run].reasoning == s.active[run].reasoning && row in t.rows
      && t.rows[row] == if row in s.rows then s.rows[row].(content := s.rows[row].content + delta)
                        else Row(Some(run), Reply, delta, Streaming, None, None)
  {
    EnsureStreamingEffect(s, run, id, mint);
    hide EnsureStreaming, Blank, Writable, Pointed;
    assert "" + delta == delta;
  }

  lemma OnCompletedEffect(s: State, run: Id, id: Id, text: string, turn: Option<nat>, mint: Id)
    requires Writable(s, run, id) && text != ""
    ensures var t, row := OnCompleted(s, run, id, text, turn, mint).state, Pointed(s, run, id);
      && Effect(s, t, run, None, {row}) && t.active[run].reasoning == s.active[run].reasoning
      && row in t.rows && t.rows[row].content == text && t.rows[row].status == RowCompleted
      && (row in s.rows ==> t.rows[row].runId == s.rows[row].runId && t.rows[row].kind == s.rows[row].kind)
      && (row !in s.rows ==> t.rows[row].runId == Some(run) && t.rows[row].kind == Reply)
  {
    EnsureStreamingEffect(s, run, id, mint);
    hide EnsureStreaming, Blank, Writable, Pointed;
  }

  lemma CompletingKeepsPointed(s: State, run: Id, id: Id)
    requires Writable(s, run, id) && s.active[run].reasoning != Some(Pointed(s, run, id))
    ensures var c, row := CompleteReasoning(s, run).state, Pointed(s, run, id);
      && Writable(c, run, id) && Pointed(c, run, id) == row && c.rows.Keys == s.rows.Keys
      && (row in s.rows ==> c.rows[row] == s.rows[row])
  {
    hide Blank;
  }

  lemma EffectAfterReasoning(s: State, c: State, t: State, run: Id, streaming: Option<Id>, touched: set<Id>)
    requires run in s.active && Effect(s, c, run, s.active[run].streaming, {}) && c.active[run].reasoning == None
    requires c.rows.Keys == s.rows.Keys && Effect(c, t, run, streaming, touched)
    ensures Effect(s, t, run, streaming, touched)
  {
  }

  lemma DeltaEffect(s: State, run: Id, id: Id, delta: string, mint: Id)
    requires Writable(s, run, id) && s.active[run].reasoning != Some(Pointed(s, run, id))
    ensures var t, row := Handle(s, run, MessageDelta(id, delta), mint).state, Pointed(s, run, id);
      && Effect(s, t, run, Some(row), {row}) && t.active[run].reasoning == None && row in t.rows
      && t.rows[row] == if row in s.rows then s.rows[row].(content := s.rows[row].content + delta)
                        else Row(Some(run), Reply, delta, Streaming, None, None)
  {
    var c, row, t := CompleteReasoning(s, run).state, Pointed(s, run, id),
        Handle(s, run, MessageDelta(id, delta), mint).state;
    CompleteReasoningEffect(s, run);
    HandledAfterReasoning(s, run, MessageDelta(id, delta), mint);
    CompletingKeepsPointed(s, run, id);
    hide Handle, CompleteReasoning, OnDelta, Blank, Writable, Pointed, Effect;
    OnDeltaEffect(c, run, id, delta, mint);
    EffectAfterReasoning(s, c, t, run, t.active[run].streaming, {row});
  }

  lemma CompletedEffect(s: State, run: Id, id: Id, text: string, turn: Option<nat>, mint: Id)
    requires Writable(s, run, id) && s.active[run].reasoning != Some(Pointed(s, run, id)) && text != ""
    ensures var t, row := Handle(s, run, MessageCompleted(id, text, turn), mint).state, Pointed(s, run, id);
      && Effect(s, t, run, None, {row}) && t.active[run].reasoning == None
      && row in t.rows && t.rows[row].content == text && t.rows[row].status == RowCompleted
      && (row in s.rows ==> t.rows[row].runId == s.rows[row].runId && t.rows[row].kind == s.rows[row].kind)
      && (row !in s.rows ==> t.rows[row].runId == Some(run) && t.rows[row].kind == Reply)
  {
    var c, row, t := CompleteReasoning(s, run).state, Pointed(s, run, id),
        Handle(s, run, MessageCompleted(id, text, turn), mint).state;
    CompleteReasoningEffect(s, run);
    HandledAfterReasoning(s, run, MessageCompleted(id, text, turn), mint);
    CompletingKeepsPointed(s, run, id);
    hide Handle, CompleteReasoning, OnCompleted, Blank, Writable, Pointed, Effect;
    OnCompletedEffect(c, run, id, text, turn, mint);
    EffectAfterReasoning(s, c, t, run, t.active[run].streaming, {row});
  }

  /** Tools that run after a message is completed find its row as the last completed one. */
  lemma LastCompletedIsFindable(s: State, run: Id, id: Id, text: string, turn: Option<nat>, mint: Id)
    requires Writable(s, run, id)
    ensures var o := OnCompleted(s, run, id, text, turn, mint);
      o.ok && o.state.active[run].lastCompleted == Some(Pointed(s, run, id)) && o.state.active[run].streaming == None
  {
    EnsureStreamingEffect(s, run, id, mint);
    hide EnsureStreaming, Blank, Finalized;
  }

  /** Once another reply is opened, and only then, there is no last completed one. */
  lemma OpenedReplyForgets(s: State, run: Id, id: Id, delta: string, mint: Id)
    requires Writable(s, run, id)
    ensures var t := OnDelta(s, run, id, delta, mint).state;
      run in t.active && t.active[run].lastCompleted ==
        if Pointed(s, run, id) in s.rows then s.active[run].lastCompleted else None
  {
    EnsureStreamingEffect(s, run, id, mint);
    hide EnsureStreaming, Blank, Writable, Pointed;
  }

  lemma DiscardedEffect(s: State, run: Id, id: Id, mint: Id)
    requires run in s.active && s.active[run].reasoning != Some(id) && id in s.rows
    ensures var t := Handle(s, run, MessageDiscarded(id), mint).state;
      && Effect(s, t, run, if s.active[run].streaming == Some(id) then None else s.active[run].streaming, {id})
      && t.active[run].reasoning == None && t.rows[id] == s.rows[id].(status := Discarded)
  {
  }

  /** Discarding an id that has no row discards nothing. */
  lemma AbsentDiscard(s: State, run: Id, id: Id, mint: Id)
    requires run in s.active && id !in s.rows && s.active[run].streaming != Some(id)
    ensures var t := Handle(s, run, MessageDiscarded(id), mint).state;
      Effect(s, t, run, s.active[run].streaming, {}) && t.active[run].reasoning == None
  {
  }

  lemma EnsureReasoningEffect(s: State, run: Id, id: Id)
    requires run in s.active
    ensures var o := EnsureReasoning(s, run, id);
      && Effect(s, o.state, run, s.active[run].streaming, {id})
      && (o.ok ==>
            && o.state.active[run].reasoning == Some(id)
            && (s.active[run].reasoning != Some(id) ==> id in o.state.rows)
            && (id in s.rows ==> s.active[run].reasoning == Some(id)))
      && (!o.ok ==> o.state.active[run].reasoning == None)
      && (id in s.rows && s.active[run].reasoning != Some(id) ==> id in o.state.rows && o.state.rows[id] == s.rows[id])
  {
    CompleteReasoningEffect(s, run);
    hide CompleteReasoning;
  }

  lemma OnReasoningEffect(s: State, run: Id, id: Id, text: string, signature: Option<string>, turn: Option<nat>,
                          mint: Id)
    requires run in s.active && !Blank(id) && (s.active[run].reasoning == Some(id) ==> id in s.rows)
    ensures var t := OnReasoning(s, run, id, text, signature, turn, mint).state;
      && Effect(s, t, run, s.active[run].streaming, {id})
      && (t.active[run].reasoning == None || (t.active[run].reasoning == Some(id) && id in t.rows))
      && (id in s.rows && s.active[run].reasoning != Some(id) ==> t.rows[id] == s.rows[id])
  {
    assert RequestedId(id, mint) == id;
    hide Blank, RequestedId, EnsureReasoning;
    EnsureReasoningEffect(s, run, id);
    var o := EnsureReasoning(s, run, id);
    if o.ok && id in o.state.rows {
      var t := OnReasoning(s, run, id, text, signature, turn, mint).state;
      assert t.active == o.state.active && t.rows == o.state.rows[id := t.rows[id]];
    }
  }

  lemma ReasoningHandled(s: State, run: Id, id: Id, text: string, signature: Option<string>, turn: Option<nat>,
                         mint: Id)
    ensures Handle(s, run, ReasoningUpdated(id, text, signature, turn), mint)
            == OnReasoning(s, run, id, text, signature, turn, mint)
  {
    hide OnReasoning;
    HandledDirectly(s, run, ReasoningUpdated(id, text, signature, turn), mint);
    hide Handle;
  }

  lemma ReasoningEffect(s: State, run: Id, id: Id, text: string, signature: Option<string>, turn: Option<nat>,
                        mint: Id)
    requires run in s.active && !Blank(id) && (s.active[run].reasoning == Some(id) ==> id in s.rows)
    ensures var t := Handle(s, run, ReasoningUpdated(id, text, signature, turn), mint).state;
      && Effect(s, t, run, s.active[run].streaming, {id})
      && (t.active[run].reasoning == None || (t.active[run].reasoning == Some(id) && id in t.rows))
      && (id in s.rows && s.active[run].reasoning != Some(id) ==> t.rows[id] == s.rows[id])
  {
    hide Blank, Handle, OnReasoning, Effect;
    ReasoningHandled(s, run, id, text, signature, turn, mint);
    OnReasoningEffect(s, run, id, text, signature, turn, mint);
  }

  lemma HandledDirectly(s: State, run: Id, e: StreamEvent, mint: Id)
    requires !CompletesReasoning(e) && !Terminal(e)
    ensures Handle(s, run, e, mint) == Apply(s, run, e, mint)
  {
    hide Apply;
  }

  /** Events other senders put on the run's channel: anything but messages, reasoning and ends. */
  predicate Foreign(e: StreamEvent) {
    !(e.MessageDelta? || e.MessageCompleted? || e.MessageDiscarded? || e.ReasoningUpdated? || Terminal(e))
  }

  function RowOf(e: StreamEvent): set<Id> {
    if e.UserMessageRecorded? then {e.id} else {}
  }

  lemma ForeignEffect(s: State, run: Id, e: StreamEvent, mint: Id)
    requires run in s.active && Foreign(e)
    ensures var t := Handle(s, run, e, mint).state;
      && Effect(s, t, run, s.active[run].streaming, RowOf(e))
      && (t.active[run].reasoning == None || t.active[run].reasoning == s.active[run].reasoning)
      && (forall j :: j in RowOf(e) && j in s.rows ==> t.rows[j] == s.rows[j])
  {
    var c := if CompletesReasoning(e) then CompleteReasoning(s, run).state else s;
    assert Effect(s, c, run, s.active[run].streaming, {});
    assert c.active[run].reasoning == None || c.active[run].reasoning == s.active[run].reasoning;
    assert Handle(s, run, e, mint).state == Apply(c, run, e, mint).state by { hide Apply; }
    ForeignApplied(c, run, e, mint);
    hide Handle, Apply, CompleteReasoning, CompletesReasoning, Foreign;
  }

  lemma ForeignApplied(s: State, run: Id, e: StreamEvent, mint: Id)
    requires Foreign(e)
    ensures var t := Apply(s, run, e, mint).state;
      && t.active == s.active
      && (forall j :: j in s.rows ==> j in t.rows && t.rows[j] == s.rows[j])
      && (forall j :: j in t.rows ==> j in s.rows || j in RowOf(e))
  {
    hide FinishRun;
  }

  // ---------------------------------------------------------------- the simulation

  predicate Shows(r: Row, run: Id, e: Entry) {
    r.runId == Some(run) && r.kind == Reply && r.content == e.text && r.status == e.status
  }

  /** The rows named by `ids`, in order, are the transcript. */
  ghost predicate ShowsAll(s: State, run: Id, ids: seq<Id>, d: Transcript) {
    && |ids| == |d.entries|
    && Distinct(ids)
    && forall i :: 0 <= i < |ids| ==> ids[i] in s.rows && Shows(s.rows[ids[i]], run, d.entries[i])
  }

  function OpenId(ids: seq<Id>, d: Transcript): Option<Id> {
    if d.open && ids != [] then Some(ids[|ids| - 1]) else None
  }

  /** The translator's message cells are what the transcript says of them. */
  predicate Holds(t: Translator, ids: seq<Id>, d: Transcript) {
    && (match d.voice
        case Silent => t.current.None?
        case Own => t.current == OpenId(ids, d)
        case Adrift => t.current.Some?)
    && t.lastDelta == d.last
    && (match d.done
        case NoneDone => t.lastCompleted.None?
        case DoneAt(k) => k < |ids| && t.lastCompleted == Some(ids[k])
        case DoneAdrift => t.lastCompleted.Some?)
  }

  /** The ids the translator holds of messages that have no reply of their own. */
  function Strays(t: Translator, d: Transcript): set<Id> {
    (if d.voice == Adrift && t.current.Some? then {t.current.value} else {})
    + (if d.done == DoneAdrift && t.lastCompleted.Some? then {t.lastCompleted.value} else {})
  }

  /** No row has such an id, and none will. */
  ghost predicate NoRowFor(t: Translator, s: State, issued: set<Id>, d: Transcript) {
    forall x :: x in Strays(t, d) ==> x !in s.rows && x in issued && !Blank(x) && t.currentReasoning != Some(x)
  }

  /** The reasoning row the handler points at is no reply. */
  predicate ReasoningRow(s: State, run: Id, ids: seq<Id>)
    requires run in s.active
  {
    var r := s.active[run].reasoning;
    r.Some? ==> r.value !in ids && r.value in s.rows
  }

  /** Nor is the reasoning block the translator is at. */
  ghost predicate ReasoningCell(t: Translator, ids: seq<Id>, issued: set<Id>) {
    t.currentReasoning.Some? ==>
      t.currentReasoning.value !in ids && t.currentReasoning.value in issued && !Blank(t.currentReasoning.value)
  }

  /** Translator, drained handler and transcript agree; `issued` holds every row id in use or sent. */
  ghost predicate InStep(t: Translator, s: State, run: Id, ids: seq<Id>, issued: set<Id>, d: Transcript) {
    && Wellformed(d)
    && run in s.active
    && ShowsAll(s, run, ids, d)
    && s.active[run].streaming == OpenId(ids, d)
    && Holds(t, ids, d)
    && NoRowFor(t, s, issued, d)
    && ReasoningRow(s, run, ids)
    && ReasoningCell(t, ids, issued)
    && (forall j :: j in s.rows ==> j in issued)
    && (forall i :: 0 <= i < |ids| ==> !Blank(ids[i]))
  }

  function ExtendIds(ids: seq<Id>, d: Transcript, e: AgentEvent, mint: Id): seq<Id>
    requires Wellformed(d)
  {
    if |Advance(d, e).entries| > |d.entries| then ids + [mint] else ids
  }

  /** A handled event that touches no reply row and moves no reply pointer. */
  ghost predicate Harmless(s: State, t: State, run: Id, ids: seq<Id>) {
    && run in s.active && run in t.active && t.active[run].streaming == s.active[run].streaming
    && ReasoningRow(t, run, ids)
    && (forall i :: 0 <= i < |ids| ==> ids[i] in s.rows && ids[i] in t.rows && t.rows[ids[i]] == s.rows[ids[i]])
  }

  lemma EffectKeepsOthers(s: State, t: State, run: Id, streaming: Option<Id>, touched: set<Id>, ids: seq<Id>, i: nat)
    requires Effect(s, t, run, streaming, touched) && i < |ids| && ids[i] in s.rows && ids[i] !in touched
    requires s.active[run].reasoning.Some? ==> s.active[run].reasoning.value !in ids
    ensures ids[i] in t.rows && t.rows[ids[i]] == s.rows[ids[i]]
  {
  }

  /** The row at position k changes, and the transcript changes there in the same way. */
  lemma ShowsUpdate(s: State, t: State, run: Id, streaming: Option<Id>, ids: seq<Id>, d: Transcript, d': Transcript,
                    k: nat)
    requires ShowsAll(s, run, ids, d) && k < |ids| && Effect(s, t, run, streaming, {ids[k]})
    requires s.active[run].reasoning.Some? ==> s.active[run].reasoning.value !in ids
    requires |d'.entries| == |d.entries| && forall i :: 0 <= i < |ids| && i != k ==> d'.entries[i] == d.entries[i]
    requires Shows(t.rows[ids[k]], run, d'.entries[k])
    ensures ShowsAll(t, run, ids, d')
  {
    forall i | 0 <= i < |ids| ensures ids[i] in t.rows && Shows(t.rows[ids[i]], run, d'.entries[i]) {
      if i != k {
        hide Effect, Shows;
        EffectKeepsOthers(s, t, run, streaming, {ids[k]}, ids, i);
      }
    }
  }

  /** A row of a new id appears, and the transcript gains an entry at its end. */
  lemma ShowsExtend(s: State, t: State, run: Id, streaming: Option<Id>, ids: seq<Id>, d: Transcript, d': Transcript,
                    id: Id)
    requires ShowsAll(s, run, ids, d) && id !in s.rows && Effect(s, t, run, streaming, {id})
    requires s.active[run].reasoning.Some? ==> s.active[run].reasoning.value !in ids
    requires |d'.entries| == |d.entries| + 1 && forall i :: 0 <= i < |ids| ==> d'.entries[i] == d.entries[i]
    requires id in t.rows && Shows(t.rows[id], run, d'.entries[|ids|])
    ensures ShowsAll(t, run, ids + [id], d')
  {
    forall i | 0 <= i < |ids| ensures ids[i] in t.rows && Shows(t.rows[ids[i]], run, d'.entries[i]) {
      hide Effect, Shows;
      EffectKeepsOthers(s, t, run, streaming, {id}, ids, i);
    }
    assert id !in ids;
    hide Effect, Shows;
  }

  lemma EffectIsHarmless(s: State, t: State, run: Id, touched: set<Id>, ids: seq<Id>)
    requires run in s.active && Effect(s, t, run, s.active[run].streaming, touched)
    requires s.active[run].reasoning.Some? ==> s.active[run].reasoning.value !in ids
    requires ReasoningRow(t, run, ids)
    requires forall i :: 0 <= i < |ids| ==> ids[i] in s.rows
    requires forall j :: j in touched && j in ids ==> t.rows[j] == s.rows[j]
    ensures Harmless(s, t, run, ids)
  {
  }

  /** The cells of the translator the simulation depends on, for the message part. */
  predicate SameMessageCells(t: Translator, u: Translator) {
    u.current == t.current && u.lastDelta == t.lastDelta && u.lastCompleted == t.lastCompleted
  }

  /** The cells and the transcript may change as long as they fit each other and no reply changes. */
  lemma HarmlessKeeps(t: Translator, u: Translator, s: State, s': State, run: Id, ids: seq<Id>,
                      issued: set<Id>, issued': set<Id>, d: Transcript, d': Transcript)
    requires InStep(t, s, run, ids, issued, d) && Harmless(s, s', run, ids)
    requires Wellformed(d') && d'.entries == d.entries && d'.open == d.open
    requires Holds(u, ids, d') && ReasoningCell(u, ids, issued') && NoRowFor(u, s', issued', d')
    requires forall j :: j in s'.rows ==> j in issued'
    ensures InStep(u, s', run, ids, issued', d')
  {
    hide Blank, Wellformed, Shows, Holds, NoRowFor, ReasoningCell;
  }

  lemma SelfHarmless(t: Translator, s: State, run: Id, ids: seq<Id>, issued: set<Id>, d: Transcript)
    requires InStep(t, s, run, ids, issued, d)
    ensures Harmless(s, s, run, ids)
  {
    hide Blank, Wellformed, Shows, Holds, NoRowFor, ReasoningCell;
  }

  lemma HoldsAlike(t: Translator, u: Translator, ids: seq<Id>, d: Transcript)
    requires Holds(t, ids, d) && SameMessageCells(t, u)
    ensures Holds(u, ids, d) && Strays(u, d) == Strays(t, d)
  {
  }

  /** An id no row has and nothing was sent under. */
  predicate Unissued(mint: Id, issued: set<Id>) {
    mint !in issued && !Blank(mint)
  }

  /** What is known of the ids when a step adds no rows but for `added` and no stray but the fresh id. */
  lemma StraysStay(t: Translator, u: Translator, s: State, s': State, run: Id, ids: seq<Id>, issued: set<Id>, mint: Id,
                   d: Transcript, d': Transcript, added: set<Id>)
    requires InStep(t, s, run, ids, issued, d) && Unissued(mint, issued)
    requires forall x :: x in Strays(u, d') ==>
            x in Strays(t, d) || (x == mint && mint !in added && u.currentReasoning != Some(mint))
    requires forall x :: x in added ==> x == mint || t.currentReasoning == Some(x)
    requires u.currentReasoning == None || u.currentReasoning == t.currentReasoning || u.currentReasoning == Some(mint)
    requires forall j :: j in s'.rows ==> j in s.rows || j in added
    ensures NoRowFor(u, s', issued + {mint}, d')
  {
    hide Blank, Wellformed, ShowsAll, Holds, Strays;
  }

  /** Reply k changes in the rows as it does in the transcript, and the cells follow. */
  lemma ReplyTouched(t: Translator, u: Translator, s: State, s': State, run: Id, ids: seq<Id>,
                     issued: set<Id>, issued': set<Id>, d: Transcript, d': Transcript, k: nat)
    requires InStep(t, s, run, ids, issued, d) && k < |ids| && issued <= issued'
    requires Effect(s, s', run, OpenId(ids, d'), {ids[k]}) && s'.active[run].reasoning == None
    requires |d'.entries| == |d.entries| && forall i :: 0 <= i < |ids| && i != k ==> d'.entries[i] == d.entries[i]
    requires Shows(s'.rows[ids[k]], run, d'.entries[k])
    requires Wellformed(d') && Holds(u, ids, d') && ReasoningCell(u, ids, issued') && NoRowFor(u, s', issued', d')
    ensures InStep(u, s', run, ids, issued', d')
  {
    hide NoRowFor, Holds, ReasoningCell, Wellformed, Blank, OpenId;
    ShowsUpdate(s, s', run, OpenId(ids, d'), ids, d, d', k);
    hide Shows, ShowsAll;
  }

  /** A reply under the id `mint` joins the rows and the transcript, and the cells follow. */
  lemma ReplyOpened(t: Translator, u: Translator, s: State, s': State, run: Id, ids: seq<Id>, issued: set<Id>,
                    mint: Id,
                    d: Transcript, d': Transcript)
    requires InStep(t, s, run, ids, issued, d) && Unissued(mint, issued)
    requires Effect(s, s', run, OpenId(ids + [mint], d'), {mint}) && s'.active[run].reasoning == None
    requires |d'.entries| == |d.entries| + 1 && forall i :: 0 <= i < |ids| ==> d'.entries[i] == d.entries[i]
    requires mint in s'.rows && Shows(s'.rows[mint], run, d'.entries[|ids|])
    requires Wellformed(d') && Holds(u, ids + [mint], d') && NoRowFor(u, s', issued + {mint}, d')
    requires u.currentReasoning == None || u.currentReasoning == t.currentReasoning
    ensures InStep(u, s', run, ids + [mint], issued + {mint}, d')
  {
    hide NoRowFor, Holds, Wellformed, OpenId;
    ShowsExtend(s, s', run, OpenId(ids + [mint], d'), ids, d, d', mint);
    hide Shows, ShowsAll, Blank;
  }

  /** Where the next message event goes, and that nothing stands in the way. */
  lemma OpenReply(t: Translator, s: State, run: Id, ids: seq<Id>, issued: set<Id>, d: Transcript, mint: Id)
    requires InStep(t, s, run, ids, issued, d) && Unissued(mint, issued)
    ensures |ids| == |d.entries|
    ensures var id := OrMint(t.current, mint);
      && Writable(s, run, id)
      && (d.open ==> ids != [] && Pointed(s, run, id) == ids[|ids| - 1])
      && (!d.open ==> t.current.None? && Pointed(s, run, id) == mint)
      && s.active[run].reasoning != Some(Pointed(s, run, id))
      && (Pointed(s, run, id) in s.rows <==> d.open)
      && (d.open ==> Shows(s.rows[ids[|ids| - 1]], run, d.entries[|ids| - 1]))
  {
    hide Blank, Shows;
    if d.open {
      assert ids[|ids| - 1] in ids && !Blank(ids[|ids| - 1]);
    }
    assert mint !in s.rows;
    assert !Blank(OrMint(t.current, mint)) by {
      if d.voice == Adrift {
        assert t.current.value in Strays(t, d);
      }
    }
  }

  lemma InStepCells(t: Translator, s: State, run: Id, ids: seq<Id>, issued: set<Id>, d: Transcript)
    requires InStep(t, s, run, ids, issued, d)
    ensures Wellformed(d) && |ids| == |d.entries| && (d.open ==> ids != []) && run in s.active
    ensures s.active[run].streaming == OpenId(ids, d)
    ensures Holds(t, ids, d) && ReasoningCell(t, ids, issued) && NoRowFor(t, s, issued, d)
  {
    hide Blank, Shows, Holds, ReasoningCell, NoRowFor;
  }

  lemma ReplyRow(t: Translator, s: State, run: Id, ids: seq<Id>, issued: set<Id>, d: Transcript, k: nat)
    requires InStep(t, s, run, ids, issued, d) && k < |ids|
    ensures |ids| == |d.entries| && run in s.active && s.active[run].reasoning != Some(ids[k])
    ensures ids[k] in s.rows && Shows(s.rows[ids[k]], run, d.entries[k])
    ensures s.active[run].streaming == Some(ids[k]) <==> d.open && k == |ids| - 1
  {
    assert ids[k] in ids;
    hide Blank, Shows, Holds, ReasoningCell, NoRowFor;
  }

  // ---------------------------------------------------------------- one event at a time

  lemma ContinuedCells(t: Translator, u: Translator, ids: seq<Id>, d: Transcript, x: string, mint: Id)
    requires Wellformed(d) && d.open && |ids| == |d.entries| && Holds(t, ids, d)
    requires u.current == Some(OrMint(t.current, mint)) && u.lastDelta == Some(x) && u.lastCompleted == t.lastCompleted
    ensures d.entries[|d.entries| - 1].status == Streaming
    ensures var d' := Continued(d, x);
      && Wellformed(d') && OpenId(ids, d') == OpenId(ids, d) && Holds(u, ids, d')
      && forall y :: y in Strays(u, d') ==> y in Strays(t, d) || y == mint
  {
  }

  lemma DeltaContinues(t: Translator, u: Translator, s: State, run: Id, ids: seq<Id>, issued: set<Id>, d: Transcript,
                       x: string, mint: Id, spare: Id)
    requires InStep(t, s, run, ids, issued, d) && Unissued(mint, issued) && d.open
    requires u.current == Some(OrMint(t.current, mint)) && u.lastDelta == Some(x) && u.lastCompleted == t.lastCompleted
    requires u.currentReasoning == t.currentReasoning
    ensures Wellformed(d)
    ensures var s' := Handle(s, run, MessageDelta(OrMint(t.current, mint), x), spare).state;
      InStep(u, s', run, ids, issued + {mint}, Continued(d, x))
  {
    hide Handle, Blank, InStep, Wellformed, Holds, Strays, Writable, Pointed;
    InStepCells(t, s, run, ids, issued, d);
    var id := OrMint(t.current, mint);
    var s' := Handle(s, run, MessageDelta(id, x), spare).state;
    OpenReply(t, s, run, ids, issued, d, mint);
    DeltaEffect(s, run, id, x, spare);
    ContinuedCells(t, u, ids, d, x, mint);
    FreshReasoning(t, ids, issued, mint);
    StraysStay(t, u, s, s', run, ids, issued, mint, d, Continued(d, x), {});
    hide Effect, NoRowFor, Unissued;
    ReplyTouched(t, u, s, s', run, ids, issued, issued + {mint}, d, Continued(d, x), |ids| - 1);
  }

  /** A fresh id is that of no reasoning block, and more ids change nothing about the translator's. */
  lemma FreshReasoning(t: Translator, ids: seq<Id>, issued: set<Id>, mint: Id)
    requires ReasoningCell(t, ids, issued) && Unissued(mint, issued)
    ensures t.currentReasoning != Some(mint) && ReasoningCell(t, ids, issued + {mint})
            && ReasoningCell(t, ids + [mint], issued + {mint})
  {
    hide Blank;
  }

  lemma OpenedCells(t: Translator, u: Translator, ids: seq<Id>, d: Transcript, x: string, mint: Id)
    requires Wellformed(d) && |ids| == |d.entries| && !d.open && Holds(t, ids, d)
    requires u.current == Some(mint) && u.lastDelta == Some(x) && u.lastCompleted == t.lastCompleted
    ensures var d' := Opened(d, x);
      && Wellformed(d') && OpenId(ids + [mint], d') == Some(mint) && Holds(u, ids + [mint], d')
         && Strays(u, d') <= Strays(t, d)
  {
  }

  lemma DeltaOpens(t: Translator, u: Translator, s: State, run: Id, ids: seq<Id>, issued: set<Id>, d: Transcript,
                   x: string, mint: Id, spare: Id)
    requires InStep(t, s, run, ids, issued, d) && Unissued(mint, issued) && !d.open
    requires u.current == Some(mint) && u.lastDelta == Some(x) && u.lastCompleted == t.lastCompleted
    requires u.currentReasoning == t.currentReasoning
    ensures t.current == None
    ensures InStep(u, Handle(s, run, MessageDelta(mint, x), spare).state, run, ids + [mint], issued + {mint},
                   Opened(d, x))
  {
    hide Handle, Blank, InStep, Wellformed, OpenId, Holds, Strays, Writable, Pointed, ReasoningCell;
    InStepCells(t, s, run, ids, issued, d);
    var s' := Handle(s, run, MessageDelta(mint, x), spare).state;
    OpenReply(t, s, run, ids, issued, d, mint);
    DeltaEffect(s, run, mint, x, spare);
    OpenedCells(t, u, ids, d, x, mint);
    StraysStay(t, u, s, s', run, ids, issued, mint, d, Opened(d, x), {mint});
    hide Effect, NoRowFor, Unissued;
    ReplyOpened(t, u, s, s', run, ids, issued, mint, d, Opened(d, x));
  }

  lemma RetriedCells(t: Translator, u: Translator, ids: seq<Id>, d: Transcript)
    requires Wellformed(d) && |ids| == |d.entries| && Holds(t, ids, d)
    requires u.current == None && u.lastDelta == None && u.lastCompleted == t.lastCompleted
    ensures var d' := Retried(d);
      Wellformed(d') && OpenId(ids, d') == (if d.voice == Own then None else OpenId(ids, d)) && Holds(u, ids, d')
        && Strays(u, d') <= Strays(t, d)
    ensures var d' := Hushed(d);
      Wellformed(d') && OpenId(ids, d') == OpenId(ids, d) && Holds(u, ids, d') && Strays(u, d') <= Strays(t, d)
  {
  }

  /** The partial message of a failed request, discarded before the retry is announced: its row is, if it has one. */
  lemma RetryDiscards(t: Translator, u: Translator, s: State, run: Id, ids: seq<Id>, issued: set<Id>, d: Transcript,
                      mint: Id, spare: Id)
    requires InStep(t, s, run, ids, issued, d) && Unissued(mint, issued) && t.current.Some?
    requires u.current == None && u.lastDelta == None && u.lastCompleted == t.lastCompleted
            && u.currentReasoning == t.currentReasoning
    ensures Wellformed(d)
    ensures InStep(u, Handle(s, run, MessageDiscarded(t.current.value), spare).state, run, ids, issued + {mint},
                   Retried(d))
  {
    InStepCells(t, s, run, ids, issued, d);
    if d.voice == Own {
      OwnDiscarded(t, u, s, run, ids, issued, d, mint, spare);
    } else {
      hide Handle;
      StrayDiscarded(t, u, s, run, ids, issued, d, Retried(d), t.current.value, mint, spare) by {
        RetriedCells(t, u, ids, d);
      }
    }
  }

  lemma OwnDiscarded(t: Translator, u: Translator, s: State, run: Id, ids: seq<Id>, issued: set<Id>, d: Transcript,
                     mint: Id, spare: Id)
    requires InStep(t, s, run, ids, issued, d) && Unissued(mint, issued) && d.voice == Own
    requires u.current == None && u.lastDelta == None && u.lastCompleted == t.lastCompleted
            && u.currentReasoning == t.currentReasoning
    ensures Wellformed(d) && t.current.Some?
    ensures InStep(u, Handle(s, run, MessageDiscarded(t.current.value), spare).state, run, ids, issued + {mint},
                   Retried(d))
  {
    InStepCells(t, s, run, ids, issued, d);
    var k := |ids| - 1;
    var id := ids[k];
    var s' := Handle(s, run, MessageDiscarded(id), spare).state;
    assert t.current == Some(id);
    ReplyRow(t, s, run, ids, issued, d, k);
    DiscardedEffect(s, run, id, spare);
    RetriedCells(t, u, ids, d);
    FreshReasoning(t, ids, issued, mint);
    hide Handle, Blank, InStep, Wellformed, OpenId, Holds, Strays;
    StraysStay(t, u, s, s', run, ids, issued, mint, d, Retried(d), {});
    hide Effect, NoRowFor, Unissued;
    ReplyTouched(t, u, s, s', run, ids, issued, issued + {mint}, d, Retried(d), k);
  }

  /** Discarding a stray id leaves every reply alone. */
  lemma StrayDiscarded(t: Translator, u: Translator, s: State, run: Id, ids: seq<Id>, issued: set<Id>, d: Transcript,
                       d': Transcript,
                       id: Id, mint: Id, spare: Id)
    requires InStep(t, s, run, ids, issued, d) && Unissued(mint, issued) && id in Strays(t, d)
    requires Wellformed(d') && d'.entries == d.entries && d'.open == d.open && Holds(u, ids, d')
            && Strays(u, d') <= Strays(t, d)
    requires u.currentReasoning == t.currentReasoning
    ensures InStep(u, Handle(s, run, MessageDiscarded(id), spare).state, run, ids, issued + {mint}, d')
  {
    InStepCells(t, s, run, ids, issued, d);
    SelfHarmless(t, s, run, ids, issued, d);
    var s' := Handle(s, run, MessageDiscarded(id), spare).state;
    assert id !in s.rows && s.active[run].streaming != Some(id);
    AbsentDiscard(s, run, id, spare);
    FreshReasoning(t, ids, issued, mint);
    hide Handle, Blank, Wellformed, OpenId, Holds, Strays, Shows;
    EffectIsHarmless(s, s', run, {}, ids);
    StraysStay(t, u, s, s', run, ids, issued, mint, d, d', {});
    hide NoRowFor, Unissued, ShowsAll;
    HarmlessKeeps(t, u, s, s', run, ids, issued, issued + {mint}, d, d');
  }

  lemma ConcludedCells(t: Translator, u: Translator, ids: seq<Id>, d: Transcript, text: string, mint: Id)
    requires Wellformed(d) && |ids| == |d.entries| && Holds(t, ids, d)
    requires u.current == None && u.lastDelta == None && u.lastCompleted == Some(OrMint(t.current, mint))
    ensures var d' := Concluded(d, text);
      && Wellformed(d') && OpenId(ids, d') == None
      && (d.open ==> Holds(u, ids, d') && forall y :: y in Strays(u, d') ==> y in Strays(t, d) || y == mint)
      && (!d.open ==> t.current.None? && Holds(u, ids + [mint], d') && Strays(u, d') == {})
  {
  }

  lemma EndCompletes(t: Translator, u: Translator, s: State, run: Id, ids: seq<Id>, issued: set<Id>, d: Transcript,
                     text: string, turn: Option<nat>, mint: Id, spare: Id)
    requires InStep(t, s, run, ids, issued, d) && Unissued(mint, issued) && d.open && text != ""
    requires u.current == None && u.lastDelta == None && u.lastCompleted == Some(OrMint(t.current, mint))
            && u.currentReasoning == None
    ensures Wellformed(d)
    ensures var s' := Handle(s, run, MessageCompleted(OrMint(t.current, mint), text, turn), spare).state;
      InStep(u, s', run, ids, issued + {mint}, Concluded(d, text))
  {
    hide Handle, Blank, InStep, Wellformed, Holds, Strays, Writable, Pointed;
    InStepCells(t, s, run, ids, issued, d);
    var id := OrMint(t.current, mint);
    var s' := Handle(s, run, MessageCompleted(id, text, turn), spare).state;
    OpenReply(t, s, run, ids, issued, d, mint);
    CompletedEffect(s, run, id, text, turn, spare);
    ConcludedCells(t, u, ids, d, text, mint);
    StraysStay(t, u, s, s', run, ids, issued, mint, d, Concluded(d, text), {});
    hide OpenId;
    assert Shows(s'.rows[ids[|ids| - 1]], run, Entry(text, RowCompleted));
    hide Effect, NoRowFor, Unissued, Shows;
    ReplyTouched(t, u, s, s', run, ids, issued, issued + {mint}, d, Concluded(d, text), |ids| - 1);
  }

  lemma EndOpens(t: Translator, u: Translator, s: State, run: Id, ids: seq<Id>, issued: set<Id>, d: Transcript,
                 text: string, turn: Option<nat>, mint: Id, spare: Id)
    requires InStep(t, s, run, ids, issued, d) && Unissued(mint, issued) && !d.open && text != ""
    requires u.current == None && u.lastDelta == None && u.lastCompleted == Some(mint) && u.currentReasoning == None
    ensures Wellformed(d) && t.current == None
    ensures var s' := Handle(s, run, MessageCompleted(mint, text, turn), spare).state;
      InStep(u, s', run, ids + [mint], issued + {mint}, Concluded(d, text))
  {
    hide Handle, Blank, InStep, Wellformed, Holds, Strays, Writable, Pointed;
    InStepCells(t, s, run, ids, issued, d);
    var s' := Handle(s, run, MessageCompleted(mint, text, turn), spare).state;
    OpenReply(t, s, run, ids, issued, d, mint);
    CompletedEffect(s, run, mint, text, turn, spare);
    ConcludedCells(t, u, ids, d, text, mint);
    StraysStay(t, u, s, s', run, ids, issued, mint, d, Concluded(d, text), {mint});
    assert OpenId(ids + [mint], Concluded(d, text)) == None;
    hide OpenId;
    assert Shows(s'.rows[mint], run, Entry(text, RowCompleted));
    hide Effect, NoRowFor, Unissued, Shows;
    ReplyOpened(t, u, s, s', run, ids, issued, mint, d, Concluded(d, text));
  }

  lemma WithdrawDiscards(t: Translator, s: State, run: Id, ids: seq<Id>, issued: set<Id>, d: Transcript, mint: Id,
                         spare: Id)
    requires InStep(t, s, run, ids, issued, d) && Unissued(mint, issued) && t.lastCompleted.Some?
    ensures Wellformed(d)
    ensures InStep(t, Handle(s, run, MessageDiscarded(t.lastCompleted.value), spare).state, run, ids, issued + {mint},
                   Withdrawn(d))
  {
    InStepCells(t, s, run, ids, issued, d);
    if d.done.DoneAt? {
      DoneDiscarded(t, s, run, ids, issued, d, mint, spare);
    } else {
      hide Handle;
      StrayDiscarded(t, t, s, run, ids, issued, d, d, t.lastCompleted.value, mint, spare);
    }
  }

  lemma DoneDiscarded(t: Translator, s: State, run: Id, ids: seq<Id>, issued: set<Id>, d: Transcript, mint: Id,
                      spare: Id)
    requires InStep(t, s, run, ids, issued, d) && Unissued(mint, issued) && d.done.DoneAt?
    ensures Wellformed(d) && t.lastCompleted.Some?
    ensures InStep(t, Handle(s, run, MessageDiscarded(t.lastCompleted.value), spare).state, run, ids, issued + {mint},
                   Withdrawn(d))
  {
    hide Handle, Blank, InStep, Wellformed, Strays, ReasoningCell, NoRowFor;
    InStepCells(t, s, run, ids, issued, d);
    var k := d.done.place;
    var id := ids[k];
    var s' := Handle(s, run, MessageDiscarded(id), spare).state;
    assert t.lastCompleted == Some(id);
    ReplyRow(t, s, run, ids, issued, d, k);
    DiscardedEffect(s, run, id, spare);
    WithdrawnCells(t, ids, d);
    FreshReasoning(t, ids, issued, mint);
    StraysStay(t, t, s, s', run, ids, issued, mint, d, Withdrawn(d), {});
    hide Effect, NoRowFor, Unissued;
    ReplyTouched(t, t, s, s', run, ids, issued, issued + {mint}, d, Withdrawn(d), k);
  }

  lemma WithdrawnCells(t: Translator, ids: seq<Id>, d: Transcript)
    requires Wellformed(d) && |ids| == |d.entries| && Holds(t, ids, d)
    ensures var d' := Withdrawn(d);
      Wellformed(d') && OpenId(ids, d') == OpenId(ids, d) && Holds(t, ids, d') && Strays(t, d') == Strays(t, d)
  {
  }

  /** Reasoning of any block but a reply's id leaves the replies alone. */
  lemma ReasoningKeeps(t: Translator, u: Translator, s: State, run: Id, ids: seq<Id>, issued: set<Id>, d: Transcript,
                       id: Id,
                       text: string, signature: Option<string>, turn: Option<nat>, mint: Id, spare: Id)
    requires InStep(t, s, run, ids, issued, d) && Unissued(mint, issued) && id == OrMint(t.currentReasoning, mint)
    requires SameMessageCells(t, u) && (u.currentReasoning == None || u.currentReasoning == Some(id))
    ensures InStep(u, Handle(s, run, ReasoningUpdated(id, text, signature, turn), spare).state, run, ids,
                   issued + {mint}, d)
  {
    hide Handle, Blank, Shows, Wellformed, OpenId, Holds, Strays;
    var s' := Handle(s, run, ReasoningUpdated(id, text, signature, turn), spare).state;
    InStepCells(t, s, run, ids, issued, d);
    SelfHarmless(t, s, run, ids, issued, d);
    HoldsAlike(t, u, ids, d);
    NoReplysReasoning(t, s, run, ids, issued, d, mint);
    ReasoningEffect(s, run, id, text, signature, turn, spare);
    EffectIsHarmless(s, s', run, {id}, ids);
    StraysStay(t, u, s, s', run, ids, issued, mint, d, d, {id});
    hide ShowsAll, NoRowFor;
    HarmlessKeeps(t, u, s, s', run, ids, issued, issued + {mint}, d, d);
  }

  lemma NoReplysReasoning(t: Translator, s: State, run: Id, ids: seq<Id>, issued: set<Id>, d: Transcript, mint: Id)
    requires InStep(t, s, run, ids, issued, d) && Unissued(mint, issued)
    ensures var id := OrMint(t.currentReasoning, mint); !Blank(id) && id !in ids && id !in Strays(t, d)
  {
    hide Blank, Shows, Wellformed, OpenId, Holds, Strays;
  }

  lemma ForeignKeeps(t: Translator, s: State, run: Id, ids: seq<Id>, issued: set<Id>, d: Transcript, e: StreamEvent,
                     spare: Id)
    requires InStep(t, s, run, ids, issued, d) && Foreign(e) && RowOf(e) !! Strays(t, d)
    ensures InStep(t, Handle(s, run, e, spare).state, run, ids, issued + RowOf(e), d)
  {
    var s' := Handle(s, run, e, spare).state;
    InStepCells(t, s, run, ids, issued, d);
    SelfHarmless(t, s, run, ids, issued, d);
    ForeignEffect(s, run, e, spare);
    hide Handle, Blank, Shows, Wellformed, OpenId, Foreign, Holds, Strays, RowOf;
    EffectIsHarmless(s, s', run, RowOf(e), ids);
    hide ShowsAll;
    HarmlessKeeps(t, t, s, s', run, ids, issued, issued + RowOf(e), d, d);
  }

  /** No event was sent, and the cells are as the transcript's change says. */
  lemma QuietKeeps(t: Translator, u: Translator, s: State, run: Id, ids: seq<Id>, issued: set<Id>, issued': set<Id>,
                   d: Transcript, d': Transcript)
    requires InStep(t, s, run, ids, issued, d) && issued <= issued'
    requires Wellformed(d') && d'.entries == d.entries && d'.open == d.open && Holds(u, ids, d')
            && Strays(u, d') <= Strays(t, d)
    requires u.currentReasoning == None || u.currentReasoning == t.currentReasoning
    ensures InStep(u, s, run, ids, issued', d')
  {
    InStepCells(t, s, run, ids, issued, d);
    SelfHarmless(t, s, run, ids, issued, d);
    hide Blank, Shows, ShowsAll, Wellformed, OpenId, Holds, Strays;
    HarmlessKeeps(t, u, s, s, run, ids, issued, issued', d, d');
  }

  /** In particular when no cell the simulation reads has changed. */
  lemma SameKeeps(t: Translator, u: Translator, s: State, run: Id, ids: seq<Id>, issued: set<Id>, issued': set<Id>,
                  d: Transcript)
    requires InStep(t, s, run, ids, issued, d) && issued <= issued' && SameMessageCells(t, u)
    requires u.currentReasoning == None || u.currentReasoning == t.currentReasoning
    ensures InStep(u, s, run, ids, issued', d)
  {
    InStepCells(t, s, run, ids, issued, d);
    HoldsAlike(t, u, ids, d);
    hide InStep, Holds, Strays;
    QuietKeeps(t, u, s, run, ids, issued, issued', d, d);
  }

  /** The end of another role's message forgets the last delta, and only that. */
  lemma BreakKeeps(t: Translator, s: State, run: Id, ids: seq<Id>, issued: set<Id>, issued': set<Id>, d: Transcript)
    requires InStep(t, s, run, ids, issued, d) && issued <= issued'
    ensures InStep(NoReasoning(t.(lastDelta := None)), s, run, ids, issued', d.(last := None))
  {
    InStepCells(t, s, run, ids, issued, d);
    hide InStep;
    QuietKeeps(t, NoReasoning(t.(lastDelta := None)), s, run, ids, issued, issued', d, d.(last := None));
  }

  /** The end of a message without text sends nothing: the translator is at no message, an open reply stays open. */
  lemma EmptyEndKeeps(t: Translator, u: Translator, s: State, run: Id, ids: seq<Id>, issued: set<Id>,
                      issued': set<Id>, d: Transcript)
    requires InStep(t, s, run, ids, issued, d) && issued <= issued'
    requires u.current == None && u.lastDelta == None && u.lastCompleted == t.lastCompleted
            && u.currentReasoning == None
    ensures InStep(u, s, run, ids, issued', Hushed(d))
  {
    InStepCells(t, s, run, ids, issued, d);
    RetriedCells(t, u, ids, d);
    hide InStep, Holds, Strays, Wellformed;
    QuietKeeps(t, u, s, run, ids, issued, issued', d, Hushed(d));
  }

  /** An event that names no row leaves the three in step. */
  lemma AnnouncedKeeps(t: Translator, s: State, run: Id, ids: seq<Id>, issued: set<Id>, d: Transcript, e: StreamEvent,
                       spare: Id)
    requires InStep(t, s, run, ids, issued, d) && (e.RequestRetrying? || e.RunRetrying? || e.UsageUpdated?)
    ensures InStep(t, Handle(s, run, e, spare).state, run, ids, issued, d)
  {
    hide Handle, InStep, Strays;
    assert RowOf(e) == {} && issued + {} == issued;
    ForeignKeeps(t, s, run, ids, issued, d, e, spare);
  }

  /** Reporting usage after a step leaves it in step. */
  lemma UsageKeeps(r: Translation, u: Usage, s: State, run: Id, ids: seq<Id>, issued: set<Id>, d: Transcript,
                   spare: Id)
    requires InStep(r.t, Drain(s, run, r.sent, spare), run, ids, issued, d)
    ensures var w := WithUsage(r, u); InStep(w.t, Drain(s, run, w.sent, spare), run, ids, issued, d)
    ensures var w := WithUsage(r, u); SameMessageCells(r.t, w.t) && w.t.currentReasoning == r.t.currentReasoning
  {
    hide Handle, InStep, ReportsUsage;
    var m := Drain(s, run, r.sent, spare);
    if ReportsUsage(r.t, u) {
      DrainConcat(s, run, r.sent, [UsageUpdated], spare);
      DrainOne(m, run, UsageUpdated, spare);
      AnnouncedKeeps(r.t, m, run, ids, issued, d, UsageUpdated, spare);
      var m' := Handle(m, run, UsageUpdated, spare).state;
      SameKeeps(r.t, r.t.(lastUsage := Some(u)), m', run, ids, issued, issued, d);
    }
  }

  lemma RetryKeeps(t: Translator, s: State, run: Id, ids: seq<Id>, issued: set<Id>, d: Transcript, mint: Id, spare: Id)
    requires InStep(t, s, run, ids, issued, d) && Unissued(mint, issued)
    ensures Wellformed(d)
    ensures var r := UpdateBranch(t, Retrying, mint).r;
      InStep(r.t, Drain(s, run, r.sent, spare), run, ids, issued + {mint}, Retried(d))
  {
    hide Handle, InStep, Blank, Unissued, NoRowFor, ReasoningCell, Drain, Strays;
    InStepCells(t, s, run, ids, issued, d);
    var u := t.(current := None, lastDelta := None);
    if t.current.Some? {
      var e := MessageDiscarded(t.current.value);
      assert UpdateBranch(t, Retrying, mint).r == Translation(u, [e, RequestRetrying]);
      RetryDiscards(t, u, s, run, ids, issued, d, mint, spare);
      hide UpdateBranch, Holds, Retried, Wellformed;
      AnnouncedKeeps(u, Handle(s, run, e, spare).state, run, ids, issued + {mint}, Retried(d), RequestRetrying, spare);
      DrainTwo(s, run, e, RequestRetrying, spare);
    } else {
      assert d.voice == Silent && Retried(d) == d;
      assert UpdateBranch(t, Retrying, mint).r == Translation(t, [RequestRetrying]);
      hide UpdateBranch, Holds, Retried, Wellformed;
      SameKeeps(t, t, s, run, ids, issued, issued + {mint}, d);
      AnnouncedKeeps(t, s, run, ids, issued + {mint}, d, RequestRetrying, spare);
      DrainOne(s, run, RequestRetrying, spare);
    }
  }

  lemma ThinkingKeeps(t: Translator, s: State, run: Id, ids: seq<Id>, issued: set<Id>, d: Transcript,
                      u: AssistantUpdate,
                      mint: Id, spare: Id)
    requires InStep(t, s, run, ids, issued, d) && Unissued(mint, issued) && (u.ThinkingDelta? || u.ThinkingEnd?)
    ensures var r := UpdateBranch(t, u, mint).r;
      InStep(r.t, Drain(s, run, r.sent, spare), run, ids, issued + {mint}, d)
  {
    hide Handle, InStep, Blank, Unissued;
    var r := UpdateBranch(t, u, mint).r;
    var id := OrMint(t.currentReasoning, mint);
    match u {
      case ThinkingDelta(x) =>
        ReasoningKeeps(t, r.t, s, run, ids, issued, d, id, t.buffer + x, None, t.turnIndex, mint, spare);
        DrainOne(s, run, ReasoningUpdated(id, t.buffer + x, None, t.turnIndex), spare);
      case ThinkingEnd(content, signature) =>
        if Blank(content) {
          SameKeeps(t, r.t, s, run, ids, issued, issued + {mint}, d);
        } else {
          ReasoningKeeps(t, r.t, s, run, ids, issued, d, id, content, signature, t.turnIndex, mint, spare);
          DrainOne(s, run, ReasoningUpdated(id, content, signature, t.turnIndex), spare);
        }
    }
  }

  lemma TextKeeps(t: Translator, s: State, run: Id, ids: seq<Id>, issued: set<Id>, d: Transcript, e: AgentEvent,
                  mint: Id, spare: Id)
    requires InStep(t, s, run, ids, issued, d) && Unissued(mint, issued) && e.Update? && e.update.TextDelta?
    ensures Wellformed(d)
    ensures var r := UpdateBranch(t, e.update, mint).r;
      InStep(r.t, Drain(s, run, r.sent, spare), run, ExtendIds(ids, d, e, mint), issued + {mint}, Advance(d, e))
  {
    InStepCells(t, s, run, ids, issued, d);
    hide Handle, InStep, Blank, Unissued, NoRowFor, ReasoningCell;
    var r := UpdateBranch(t, e.update, mint).r;
    var x := e.update.delta;
    if t.lastDelta == Some(x) {
      SameKeeps(t, r.t, s, run, ids, issued, issued + {mint}, d);
    } else if d.open {
      assert Advance(d, e) == Continued(d, x);
      DeltaContinues(t, r.t, s, run, ids, issued, d, x, mint, spare);
      DrainOne(s, run, MessageDelta(OrMint(t.current, mint), x), spare);
    } else {
      assert Advance(d, e) == Opened(d, x);
      DeltaOpens(t, r.t, s, run, ids, issued, d, x, mint, spare);
      DrainOne(s, run, MessageDelta(mint, x), spare);
    }
  }

  lemma UpdateBranchKeeps(t: Translator, s: State, run: Id, ids: seq<Id>, issued: set<Id>, d: Transcript,
                          e: AgentEvent,
                          mint: Id, spare: Id)
    requires InStep(t, s, run, ids, issued, d) && Unissued(mint, issued) && e.Update?
    ensures Wellformed(d)
    ensures var r := UpdateBranch(t, e.update, mint).r;
      InStep(r.t, Drain(s, run, r.sent, spare), run, ExtendIds(ids, d, e, mint), issued + {mint}, Advance(d, e))
  {
    InStepCells(t, s, run, ids, issued, d);
    hide Handle, InStep, Blank, Unissued, NoRowFor, ReasoningCell, Holds;
    match e.update {
      case TextDelta(x) => TextKeeps(t, s, run, ids, issued, d, e, mint, spare);
      case Retrying =>
        hide UpdateBranch;
        RetryKeeps(t, s, run, ids, issued, d, mint, spare);
      case ThinkingDelta(x) =>
        hide UpdateBranch;
        ThinkingKeeps(t, s, run, ids, issued, d, e.update, mint, spare);
      case ThinkingEnd(content, signature) =>
        hide UpdateBranch;
        ThinkingKeeps(t, s, run, ids, issued, d, e.update, mint, spare);
      case _ =>
        SameKeeps(t, UpdateBranch(t, e.update, mint).r.t, s, run, ids, issued, issued + {mint}, d);
    }
  }

  lemma EndKeeps(t: Translator, s: State, run: Id, ids: seq<Id>, issued: set<Id>, d: Transcript, e: AgentEvent,
                 mint: Id, spare: Id)
    requires InStep(t, s, run, ids, issued, d) && Unissued(mint, issued) && e.MessageEnd?
    ensures Wellformed(d)
    ensures var r := TranslateEnd(t, e.message, mint);
      InStep(r.t, Drain(s, run, r.sent, spare), run, ExtendIds(ids, d, e, mint), issued + {mint}, Advance(d, e))
  {
    InStepCells(t, s, run, ids, issued, d);
    hide Handle, InStep, Blank, Unissued, WithUsage, NoRowFor, ReasoningCell;
    match e.message {
      case OtherRole =>
        BreakKeeps(t, s, run, ids, issued, issued + {mint}, d);
      case Assistant(text, usage) =>
        var r := WithUsage(Translation(t, []), usage);
        UsageKeeps(Translation(t, []), usage, s, run, ids, issued, d, spare);
        var m := Drain(s, run, r.sent, spare);
        var u := TranslateEnd(t, e.message, mint).t;
        if text == "" {
          EmptyEndKeeps(r.t, u, m, run, ids, issued, issued + {mint}, d);
        } else {
          assert Advance(d, e) == Concluded(d, text);
          var done := MessageCompleted(OrMint(t.current, mint), text, t.turnIndex);
          DrainConcat(s, run, r.sent, [done], spare);
          DrainOne(m, run, done, spare);
          if d.open {
            EndCompletes(r.t, u, m, run, ids, issued, d, text, t.turnIndex, mint, spare);
          } else {
            EndOpens(r.t, u, m, run, ids, issued, d, text, t.turnIndex, mint, spare);
          }
        }
    }
  }

  /** One agent event, whichever it is, translated and drained, keeps the three machines in step. */
  lemma AgentStepKeeps(t: Translator, s: State, run: Id, ids: seq<Id>, issued: set<Id>, d: Transcript, e: AgentEvent,
                       mint: Id, spare: Id)
    requires InStep(t, s, run, ids, issued, d) && Unissued(mint, issued)
    ensures Wellformed(d)
    ensures var r := Translate(t, e, mint);
      InStep(r.t, Drain(s, run, r.sent, spare), run, ExtendIds(ids, d, e, mint), issued + {mint}, Advance(d, e))
  {
    InStepCells(t, s, run, ids, issued, d);
    hide Handle, InStep, Unissued, UpdateBranch, TranslateEnd, WithUsage, NoRowFor, ReasoningCell, Strays;
    match e {
      case TurnRetrying =>
        AnnouncedKeeps(t, s, run, ids, issued, d, RunRetrying, spare);
        SameKeeps(t, t, Handle(s, run, RunRetrying, spare).state, run, ids, issued, issued + {mint}, d);
        DrainOne(s, run, RunRetrying, spare);
      case Update(u, turn, partial) =>
        var t1 := t.(turnIndex := Some(turn));
        SameKeeps(t, t1, s, run, ids, issued, issued, d);
        UpdateBranchKeeps(t1, s, run, ids, issued, d, e, mint, spare);
        var b := UpdateBranch(t1, u, mint);
        if b.goesOn && partial.Some? {
          UsageKeeps(b.r, partial.value, s, run, ExtendIds(ids, d, e, mint), issued + {mint}, Advance(d, e), spare);
        }
      case MessageEnd(message) =>
        EndKeeps(t, s, run, ids, issued, d, e, mint, spare);
      case CompletedDiscarded =>
        if t.lastCompleted.Some? {
          WithdrawDiscards(t, s, run, ids, issued, d, mint, spare);
          DrainOne(s, run, MessageDiscarded(t.lastCompleted.value), spare);
        } else {
          SameKeeps(t, t, s, run, ids, issued, issued + {mint}, d);
        }
      case OtherAgentEvent =>
        SameKeeps(t, t, s, run, ids, issued, issued + {mint}, d);
    }
  }

  // ---------------------------------------------------------------- where the two machines agree

  /** The open reply, if there is one, is that of the message the translator is at. */
  predicate Attended(d: Transcript) {
    d.open ==> d.voice == Own
  }

  /**
   The exact condition: the handler's pointer is the translator's current id if and only if the open reply is
   attended.
   */
  lemma AgreesIff(t: Translator, s: State, run: Id, ids: seq<Id>, issued: set<Id>, d: Transcript)
    requires InStep(t, s, run, ids, issued, d)
    ensures run in s.active && (s.active[run].streaming == t.current <==> Attended(d))
  {
    hide Blank, Shows, ReasoningCell, ReasoningRow;
    if d.voice == Adrift {
      assert t.current.value in Strays(t, d);
      assert ids[|ids| - 1] in s.rows;
    }
  }
}
