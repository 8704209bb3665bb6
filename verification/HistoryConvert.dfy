/** The closed form is the sorted table, and the four-phase method computes it. */
module HistoryConvert {
  import opened Prelude
  import opened History
  import opened HistoryTimeline

  // ---------------------------------------------------------------- the closed form, as a sorted table

  /** The position whose group an entry belongs to: merged results belong to the row they answer. */
  function GroupOf(k: SortKey): int {
    if k.sub == MERGED_TOOL_RESULT then k.position - 1 else k.position
  }

  ghost function TableBelow(rows: seq<Row>, calls: seq<Call>, count: nat): Table {
    imap k | EntryAt(rows, calls, k).Some? && GroupOf(k) < count :: EntryAt(rows, calls, k).value
  }

  /** The part of position p's group with the given sub-position. */
  ghost function Part(rows: seq<Row>, calls: seq<Call>, p: nat, sub: nat): Table {
    imap k | EntryAt(rows, calls, k).Some? && GroupOf(k) == p && k.sub == sub :: EntryAt(rows, calls, k).value
  }

  ghost predicate AllBefore(a: Table, b: Table) {
    forall k, l :: k in a && l in b ==> Before(k, l)
  }

  lemma ConcatSorted(a: seq<Slot>, b: seq<Slot>, ta: Table, tb: Table)
    requires Represents(a, ta) && StrictlySorted(a) && Represents(b, tb) && StrictlySorted(b)
    requires AllBefore(ta, tb)
    ensures StrictlySorted(a + b) && DistinctKeys(a + b)
  {
    var c := a + b;
    forall i, j | 0 <= i < j < |c| ensures Before(c[i].key, c[j].key) && c[i].key != c[j].key {
      if i < |a| && j >= |a| {
        assert a[i].key in ta && b[j - |a|].key in tb;
      }
    }
  }

  lemma ConcatHasKey(a: seq<Slot>, b: seq<Slot>, k: SortKey)
    ensures HasKey(a, k) || HasKey(b, k) ==> HasKey(a + b, k)
  {
    if HasKey(a, k) {
      var i :| 0 <= i < |a| && a[i].key == k;
      assert (a + b)[i].key == k;
    } else if HasKey(b, k) {
      var i :| 0 <= i < |b| && b[i].key == k;
      assert (a + b)[|a| + i].key == k;
    }
  }

  lemma SortedConcat(a: seq<Slot>, b: seq<Slot>, ta: Table, tb: Table)
    requires Represents(a, ta) && StrictlySorted(a) && Represents(b, tb) && StrictlySorted(b)
    requires AllBefore(ta, tb)
    ensures Represents(a + b, ta + tb) && StrictlySorted(a + b)
  {
    hide HasKey;
    var c := a + b;
    ConcatSorted(a, b, ta, tb);
    hide DistinctKeys, StrictlySorted;
    forall i | 0 <= i < |c| ensures c[i].key in ta + tb && (ta + tb)[c[i].key] == c[i].entry {
      if i < |a| {
        assert a[i].key in ta && (a[i].key in tb ==> Before(a[i].key, a[i].key));
      }
    }
    forall k | k in ta + tb ensures HasKey(c, k) {
      ConcatHasKey(a, b, k);
    }
  }

  lemma RowPart(rows: seq<Row>, calls: seq<Call>, p: nat)
    ensures Represents(RowSlots(rows, calls, p), Part(rows, calls, p, POSITIONAL))
            && StrictlySorted(RowSlots(rows, calls, p))
  {
    hide RowMessage, Placed;
    var tl, t := RowSlots(rows, calls, p), Part(rows, calls, p, POSITIONAL);
    forall k | k in t ensures HasKey(tl, k) {
      assert k == RowKey(p);
      assert tl[0].key == k;
    }
  }

  lemma StandaloneSorted(rows: seq<Row>, calls: seq<Call>, p: nat)
    ensures StrictlySorted(StandaloneSlots(rows, calls, p))
  {
    hide StandaloneSlots;
    var tl := StandaloneSlots(rows, calls, p);
    forall a, b | 0 <= a < b < |tl| ensures Before(tl[a].key, tl[b].key) {
      StandaloneKeys(rows, calls, p, a, b);
    }
  }

  lemma StandaloneKeyAt(rows: seq<Row>, calls: seq<Call>, p: nat, a: nat)
    requires a < |StandaloneSlots(rows, calls, p)|
    ensures var indices := Placed(rows, calls, Standalone(p));
            && a <= |indices| && indices != []
            && StandaloneSlots(rows, calls, p)[a].key
               == if a == 0 then StandaloneKey(p, indices[0]) else StandaloneResultKey(p, indices[a - 1])
  {
    hide ResultOf, StandaloneMessage, PlaceOf, CallBlocks, Placed, StandaloneKey, StandaloneResultKey;
  }

  lemma StandaloneKeys(rows: seq<Row>, calls: seq<Call>, p: nat, a: nat, b: nat)
    requires a < b < |StandaloneSlots(rows, calls, p)|
    ensures var tl := StandaloneSlots(rows, calls, p); Before(tl[a].key, tl[b].key)
  {
    hide StandaloneSlots, Placed, PlaceOf;
    StandaloneKeyAt(rows, calls, p, a);
    StandaloneKeyAt(rows, calls, p, b);
  }

  lemma StandaloneFirst(rows: seq<Row>, calls: seq<Call>, p: nat)
    requires Placed(rows, calls, Standalone(p)) != []
    ensures var indices := Placed(rows, calls, Standalone(p));
            EntryAt(rows, calls, StandaloneKey(p, indices[0])) == Some(Msg(StandaloneMessage(calls, indices)))
  {
    hide Placed, ResultOf, StandaloneMessage, ResultIndex;
    ResultIndexOf(Placed(rows, calls, Standalone(p))[0]);
  }

  lemma StandaloneNth(rows: seq<Row>, calls: seq<Call>, p: nat, i: nat)
    requires i in Placed(rows, calls, Standalone(p))
    ensures EntryAt(rows, calls, StandaloneResultKey(p, i)) == Some(Msg(ResultOf(calls[i])))
  {
    hide Placed, ResultOf, StandaloneMessage, ResultIndex;
    ResultIndexOf(i);
  }

  /** Slot a of the standalone part is the table's entry at its key. */
  lemma StandaloneSlot(rows: seq<Row>, calls: seq<Call>, p: nat, a: nat)
    requires a < |StandaloneSlots(rows, calls, p)|
    ensures var s := StandaloneSlots(rows, calls, p)[a];
            EntryAt(rows, calls, s.key) == Some(s.entry) && GroupOf(s.key) == p && s.key.sub == STANDALONE_TOOL_CALL
  {
    hide Placed, ResultOf, StandaloneMessage, EntryAt;
    var indices := Placed(rows, calls, Standalone(p));
    if a == 0 {
      StandaloneFirst(rows, calls, p);
    } else {
      assert StandaloneSlots(rows, calls, p)[a] == StandaloneResults(calls, indices, p)[a - 1];
      StandaloneNth(rows, calls, p, indices[a - 1]);
    }
  }

  lemma StandaloneComplete(rows: seq<Row>, calls: seq<Call>, p: nat, k: SortKey)
    requires EntryAt(rows, calls, k).Some? && GroupOf(k) == p && k.sub == STANDALONE_TOOL_CALL
    ensures HasKey(StandaloneSlots(rows, calls, p), k)
  {
    hide Placed, ResultOf, StandaloneMessage, ResultIndex;
    var tl := StandaloneSlots(rows, calls, p);
    var indices := Placed(rows, calls, Standalone(p));
    var i := ResultIndex(k.seqNo);
    if i.Some? && i.value in indices {
      var a :| 0 <= a < |indices| && indices[a] == i.value;
      assert tl[a + 1].key == k;
    } else {
      assert tl[0].key == k;
    }
  }

  lemma StandalonePart(rows: seq<Row>, calls: seq<Call>, p: nat)
    ensures Represents(StandaloneSlots(rows, calls, p), Part(rows, calls, p, STANDALONE_TOOL_CALL))
    ensures StrictlySorted(StandaloneSlots(rows, calls, p))
  {
    hide EntryAt, StandaloneSlots;
    StandaloneSorted(rows, calls, p);
    forall a | 0 <= a < |StandaloneSlots(rows, calls, p)| {
      StandaloneSlot(rows, calls, p, a);
    }
    forall k | EntryAt(rows, calls, k).Some? && GroupOf(k) == p && k.sub == STANDALONE_TOOL_CALL {
      StandaloneComplete(rows, calls, p, k);
    }
  }

  lemma MergedEntry(rows: seq<Row>, calls: seq<Call>, p: nat, i: nat)
    requires i in Placed(rows, calls, Merged(p))
    ensures EntryAt(rows, calls, MergedKey(p, i)) == Some(Msg(ResultOf(calls[i])))
  {
    hide Placed, ResultOf, ResultIndex;
    ResultIndexOf(i);
  }

  lemma MergedSlot(rows: seq<Row>, calls: seq<Call>, p: nat, a: nat)
    requires a < |MergedSlots(rows, calls, p)|
    ensures var s := MergedSlots(rows, calls, p)[a];
            EntryAt(rows, calls, s.key) == Some(s.entry) && GroupOf(s.key) == p && s.key.sub == MERGED_TOOL_RESULT
  {
    hide Placed, ResultOf, EntryAt;
    MergedEntry(rows, calls, p, Placed(rows, calls, Merged(p))[a]);
  }

  lemma MergedComplete(rows: seq<Row>, calls: seq<Call>, p: nat, k: SortKey)
    requires EntryAt(rows, calls, k).Some? && GroupOf(k) == p && k.sub == MERGED_TOOL_RESULT
    ensures HasKey(MergedSlots(rows, calls, p), k)
  {
    hide Placed, ResultOf, ResultIndex;
    var indices := Placed(rows, calls, Merged(p));
    var a :| 0 <= a < |indices| && indices[a] == ResultIndex(k.seqNo).value;
    assert MergedSlots(rows, calls, p)[a].key == k;
  }

  lemma MergedPart(rows: seq<Row>, calls: seq<Call>, p: nat)
    ensures Represents(MergedSlots(rows, calls, p), Part(rows, calls, p, MERGED_TOOL_RESULT))
    ensures StrictlySorted(MergedSlots(rows, calls, p))
  {
    hide EntryAt, Placed, ResultOf;
    forall a | 0 <= a < |MergedSlots(rows, calls, p)| {
      MergedSlot(rows, calls, p, a);
    }
    forall k | EntryAt(rows, calls, k).Some? && GroupOf(k) == p && k.sub == MERGED_TOOL_RESULT {
      MergedComplete(rows, calls, p, k);
    }
  }

  /** The three parts of position p's group together. */
  ghost function GroupTable(rows: seq<Row>, calls: seq<Call>, p: nat): Table {
    Part(rows, calls, p, POSITIONAL) + Part(rows, calls, p, STANDALONE_TOOL_CALL)
      + Part(rows, calls, p, MERGED_TOOL_RESULT)
  }

  lemma PartsInOrder(rows: seq<Row>, calls: seq<Call>, p: nat)
    ensures var r, s, m := Part(rows, calls, p, POSITIONAL), Part(rows, calls, p, STANDALONE_TOOL_CALL),
                           Part(rows, calls, p, MERGED_TOOL_RESULT);
            AllBefore(r, s) && AllBefore(r + s, m)
  {
    hide EntryAt;
  }

  lemma GroupRepresents(rows: seq<Row>, calls: seq<Call>, p: nat)
    ensures Represents(Group(rows, calls, p), GroupTable(rows, calls, p)) && StrictlySorted(Group(rows, calls, p))
  {
    hide Part, Represents, StrictlySorted, AllBefore, RowSlots, StandaloneSlots, MergedSlots;
    RowPart(rows, calls, p);
    StandalonePart(rows, calls, p);
    MergedPart(rows, calls, p);
    PartsInOrder(rows, calls, p);
    var r, s, m := Part(rows, calls, p, POSITIONAL), Part(rows, calls, p, STANDALONE_TOOL_CALL),
        Part(rows, calls, p, MERGED_TOOL_RESULT);
    SortedConcat(RowSlots(rows, calls, p), StandaloneSlots(rows, calls, p), r, s);
    SortedConcat(RowSlots(rows, calls, p) + StandaloneSlots(rows, calls, p), MergedSlots(rows, calls, p), r + s, m);
  }

  /** Entries exist only at the three sub-positions, and merged results never at position 0. */
  lemma KnownSubs(rows: seq<Row>, calls: seq<Call>, k: SortKey)
    requires EntryAt(rows, calls, k).Some?
    ensures k.sub == POSITIONAL || k.sub == STANDALONE_TOOL_CALL || k.sub == MERGED_TOOL_RESULT
    ensures 0 <= GroupOf(k) <= |rows|
  {
    hide Placed;
  }

  lemma NoTableBelow(rows: seq<Row>, calls: seq<Call>)
    ensures TableBelow(rows, calls, 0) == imap[] && Represents([], TableBelow(rows, calls, 0)) && StrictlySorted([])
  {
    hide EntryAt;
    forall k | EntryAt(rows, calls, k).Some? ensures GroupOf(k) >= 0 {
      KnownSubs(rows, calls, k);
    }
    assert forall k :: k !in TableBelow(rows, calls, 0);
  }

  lemma TableBeforeGroup(rows: seq<Row>, calls: seq<Call>, p: nat)
    ensures AllBefore(TableBelow(rows, calls, p), GroupTable(rows, calls, p))
  {
    hide EntryAt;
    var t, g := TableBelow(rows, calls, p), GroupTable(rows, calls, p);
    forall k, l | k in t && l in g ensures Before(k, l) {
      assert EntryAt(rows, calls, l).Some? && GroupOf(l) == p;
      KnownSubs(rows, calls, k);
      KnownSubs(rows, calls, l);
    }
  }

  lemma {:induction false} GroupsRepresent(rows: seq<Row>, calls: seq<Call>, count: nat)
    ensures Represents(Groups(rows, calls, count), TableBelow(rows, calls, count))
            && StrictlySorted(Groups(rows, calls, count))
  {
    hide EntryAt, Group, Represents, StrictlySorted, TableBelow, Part, AllBefore, GroupTable;
    if count == 0 {
      NoTableBelow(rows, calls);
    } else {
      var p := count - 1;
      GroupsRepresent(rows, calls, p);
      GroupRepresents(rows, calls, p);
      TableBeforeGroup(rows, calls, p);
      SortedConcat(Groups(rows, calls, p), Group(rows, calls, p), TableBelow(rows, calls, p),
                   GroupTable(rows, calls, p));
      NextTable(rows, calls, p);
    }
  }

  lemma NextTable(rows: seq<Row>, calls: seq<Call>, p: nat)
    ensures TableBelow(rows, calls, p) + GroupTable(rows, calls, p) == TableBelow(rows, calls, p + 1)
  {
    hide EntryAt;
    var t, g, u := TableBelow(rows, calls, p), GroupTable(rows, calls, p), TableBelow(rows, calls, p + 1);
    forall k ensures k in t + g <==> k in u {
      if EntryAt(rows, calls, k).Some? {
        KnownSubs(rows, calls, k);
      }
    }
    forall k | k in u ensures (t + g)[k] == u[k] {}
  }

  lemma WholeTable(rows: seq<Row>, calls: seq<Call>)
    ensures TableBelow(rows, calls, |rows| + 1) == TableOf(rows, calls)
  {
    hide EntryAt;
    forall k ensures k in TableBelow(rows, calls, |rows| + 1) <==> k in TableOf(rows, calls) {
      if EntryAt(rows, calls, k).Some? {
        KnownSubs(rows, calls, k);
      }
    }
  }

  /** The slot holds the assistant message of the calls that stand alone at q. */
  predicate HoldsStandalone(s: Slot, q: nat) {
    s.key.sub == STANDALONE_TOOL_CALL && s.key.position == q && s.entry.Msg? && s.entry.message.Assistant?
  }

  ghost predicate OneStandalone(tl: seq<Slot>) {
    forall q, a, b :: 0 <= a < |tl| && 0 <= b < |tl| && HoldsStandalone(tl[a], q) && HoldsStandalone(tl[b], q)
        ==> a == b
  }

  /**
   The closed form is the one strictly sorted arrangement of the history's table, with at most one standalone
   assistant message at each position.
   */
  lemma LayoutRepresents(rows: seq<Row>, calls: seq<Call>)
    ensures Represents(Layout(rows, calls), TableOf(rows, calls)) && StrictlySorted(Layout(rows, calls))
    ensures OneStandalone(Layout(rows, calls))
  {
    GroupsRepresent(rows, calls, |rows| + 1);
    WholeTable(rows, calls);
    var tl := Layout(rows, calls);
    hide Groups, TableBelow, EntryAt, StrictlySorted, Layout;
    forall q, a, b | 0 <= a < |tl| && 0 <= b < |tl| && HoldsStandalone(tl[a], q) && HoldsStandalone(tl[b], q)
        ensures a == b {
      StandaloneAtKey(rows, calls, tl[a], q);
      StandaloneAtKey(rows, calls, tl[b], q);
    }
  }

  lemma StandaloneAtKey(rows: seq<Row>, calls: seq<Call>, s: Slot, q: nat)
    requires EntryAt(rows, calls, s.key) == Some(s.entry) && HoldsStandalone(s, q)
    ensures Placed(rows, calls, Standalone(q)) != []
            && s.key == StandaloneKey(q, Placed(rows, calls, Standalone(q))[0])
  {
    hide Placed, PlaceOf, ResultIndex;
  }

  // ---------------------------------------------------------------- the method

  /** Phase 1 so far: the entries of the first `count` rows. */
  ghost function RowTable(rows: seq<Row>, count: nat): Table {
    imap k: SortKey | k.sub == POSITIONAL && k.seqNo == 0 && k.position < count && k.position < |rows|
      && RowEntry(rows[k.position]).Some?
      :: RowEntry(rows[k.position]).value
  }

  lemma RowTableIsTable(rows: seq<Row>)
    ensures RowTable(rows, |rows|) == TableOf(rows, [])
  {
    hide RowEntry;
    forall k ensures k in RowTable(rows, |rows|) <==> k in TableOf(rows, []) {}
    forall k | k in TableOf(rows, []) ensures RowTable(rows, |rows|)[k] == TableOf(rows, [])[k] {}
  }

  lemma RowTableNext(rows: seq<Row>, pos: nat)
    requires pos < |rows|
    ensures RowTable(rows, pos + 1)
         == if RowEntry(rows[pos]).Some? then RowTable(rows, pos)[RowKey(pos) := RowEntry(rows[pos]).value]
           else RowTable(rows, pos)
    ensures RowKey(pos) !in RowTable(rows, pos)
  {
    hide RowEntry;
    forall k: SortKey | k.position == pos && k.sub == POSITIONAL && k.seqNo == 0 ensures k == RowKey(pos) {}
  }

  /** The index of phase 2: from a row's position to its slot. */
  ghost predicate Indexes(index: map<nat, nat>, tl: seq<Slot>) {
    && (forall p :: p in index ==> index[p] < |tl| && tl[index[p]].key == RowKey(p))
    && (forall a :: 0 <= a < |tl| && tl[a].key.sub == POSITIONAL ==> tl[a].key.position in index)
  }

  /** The last slot holding a standalone assistant message at q, or -1. */
  function LastStandalone(tl: seq<Slot>, q: nat): (a: int)
    ensures -1 <= a < |tl|
    ensures 0 <= a ==> IsStandalone(tl[a], q)
    ensures forall b :: a < b < |tl| ==> !IsStandalone(tl[b], q)
  {
    if tl == [] then -1
    else if IsStandalone(tl[|tl| - 1], q) then |tl| - 1
    else LastStandalone(tl[..|tl| - 1], q)
  }

  predicate IsStandalone(s: Slot, q: nat) {
    s.key.position == q && s.key.sub == STANDALONE_TOOL_CALL && s.entry.Msg? && s.entry.message.Assistant?
  }

  /** The search of the timeline finds the standalone message at q exactly when one was made. */
  lemma StandaloneFound(tl: seq<Slot>, rows: seq<Row>, calls: seq<Call>, q: nat)
    requires Represents(tl, TableOf(rows, calls))
    ensures var a := LastStandalone(tl, q);
            var indices := Placed(rows, calls, Standalone(q));
            if indices == [] then a == -1 else a >= 0 && tl[a].key == StandaloneKey(q, indices[0])
  {
    hide Placed, LastStandalone;
    var a := LastStandalone(tl, q);
    var indices := Placed(rows, calls, Standalone(q));
    if a >= 0 {
      assert EntryAt(rows, calls, tl[a].key) == Some(tl[a].entry);
    }
    if indices != [] {
      var k := StandaloneKey(q, indices[0]);
      assert k in TableOf(rows, calls);
      assert HasKey(tl, k);
      var b :| 0 <= b < |tl| && tl[b].key == k;
      assert IsStandalone(tl[b], q);
    }
  }

  /** A row is in the index exactly when phase 1 kept it. */
  lemma IndexedIffKept(index: map<nat, nat>, tl: seq<Slot>, rows: seq<Row>, calls: seq<Call>, p: nat)
    requires Represents(tl, TableOf(rows, calls)) && Indexes(index, tl) && p < |rows|
    ensures p in index <==> RowEntry(rows[p]).Some?
  {
    if RowEntry(rows[p]).Some? {
      assert RowKey(p) in TableOf(rows, calls);
      assert HasKey(tl, RowKey(p));
    }
    if p in index {
      assert EntryAt(rows, calls, tl[index[p]].key).Some?;
    }
  }

  method BuildTimeline(rows: seq<Row>) returns (timeline: seq<Slot>)
    ensures Represents(timeline, TableOf(rows, []))
  {
    hide RowEntry, EntryAt;
    timeline := [];
    for pos := 0 to |rows|
      invariant Represents(timeline, RowTable(rows, pos))
    {
      RowTableNext(rows, pos);
      var entry := RowEntry(rows[pos]);
      if entry.Some? {
        RepresentsPush(timeline, RowTable(rows, pos), RowKey(pos), entry.value);
        timeline := timeline + [Slot(RowKey(pos), entry.value)];
      }
    }
    RowTableIsTable(rows);
  }

  /** The index so far leads to positional slots, and to all of the first `count`. */
  ghost predicate IndexesFirst(index: map<nat, nat>, tl: seq<Slot>, count: nat) {
    && (forall p :: p in index ==> index[p] < |tl| && tl[index[p]].key == RowKey(p))
    && (forall a :: 0 <= a < count && a < |tl| && tl[a].key.sub == POSITIONAL ==> tl[a].key.position in index)
  }

  lemma NoneIndexed(tl: seq<Slot>)
    ensures IndexesFirst(map[], tl, 0)
  {
  }

  lemma IndexNext(index: map<nat, nat>, tl: seq<Slot>, a: nat)
    requires IndexesFirst(index, tl, a) && a < |tl|
    requires tl[a].key.sub == POSITIONAL ==> tl[a].key == RowKey(tl[a].key.position)
    ensures IndexesFirst(if tl[a].key.sub == POSITIONAL then index[tl[a].key.position := a] else index, tl, a + 1)
  {
    hide RowKey;
  }

  lemma AllIndexed(index: map<nat, nat>, tl: seq<Slot>)
    requires IndexesFirst(index, tl, |tl|)
    ensures Indexes(index, tl)
  {
  }

  lemma PositionalKeys(tl: seq<Slot>, rows: seq<Row>)
    requires Represents(tl, TableOf(rows, []))
    ensures forall a :: 0 <= a < |tl| && tl[a].key.sub == POSITIONAL ==> tl[a].key == RowKey(tl[a].key.position)
  {
    forall a | 0 <= a < |tl| && tl[a].key.sub == POSITIONAL ensures tl[a].key.seqNo == 0 {
      assert EntryAt(rows, [], tl[a].key).Some?;
    }
  }

  method IndexRows(timeline: seq<Slot>, ghost rows: seq<Row>) returns (index: map<nat, nat>)
    requires Represents(timeline, TableOf(rows, []))
    ensures Indexes(index, timeline)
  {
    PositionalKeys(timeline, rows);
    hide Represents, TableOf, IndexesFirst;
    index := map[];
    NoneIndexed(timeline);
    for a := 0 to |timeline|
      invariant IndexesFirst(index, timeline, a)
    {
      IndexNext(index, timeline, a);
      if timeline[a].key.sub == POSITIONAL {
        index := index[timeline[a].key.position := a];
      }
    }
    AllIndexed(index, timeline);
  }

  /** Phase 2 for a call that merges: edit the reply's slot, push the result. */
  method MergeCall(rows: seq<Row>, calls: seq<Call>, j: nat, p: nat, a: nat, timeline: seq<Slot>)
    returns (next: seq<Slot>)
    requires j < |calls| && calls[j].status == "completed" && PlaceOf(rows, calls[j]) == Merged(p)
    requires Represents(timeline, TableOf(rows, calls[..j])) && a < |timeline| && timeline[a].key == RowKey(p)
    ensures Represents(next, TableOf(rows, calls[..j + 1]))
    ensures |timeline| <= |next| && forall b :: 0 <= b < |timeline| ==> next[b].key == timeline[b].key
    ensures forall b :: |timeline| <= b < |next| ==> next[b].key.sub != POSITIONAL
  {
    hide PlaceOf, EntryAt, ResultOf, TableOf, Represents;
    ghost var t := TableOf(rows, calls[..j]);
    TableMerges(rows, calls, j, p);
    SlotIs(timeline, t, a);
    next := timeline;
    match next[a].entry {
      case Msg(Assistant(content, stop)) =>
        RepresentsEdit(next, t, a, Msg(Assistant(content + [CallBlock(calls[j])], ToolUse)));
        t := t[RowKey(p) := Msg(Assistant(content + [CallBlock(calls[j])], ToolUse))];
        next := next[a := Slot(next[a].key, Msg(Assistant(content + [CallBlock(calls[j])], ToolUse)))];
      case _ =>
    }
    RepresentsPush(next, t, MergedKey(p, j), Msg(ResultOf(calls[j])));
    next := next + [Slot(MergedKey(p, j), Msg(ResultOf(calls[j])))];
  }

  /** Phase 2 for a call that stands alone: join or open the standalone message, push the result. */
  method PlaceStandalone(rows: seq<Row>, calls: seq<Call>, j: nat, q: nat, timeline: seq<Slot>)
    returns (next: seq<Slot>)
    requires j < |calls| && calls[j].status == "completed" && PlaceOf(rows, calls[j]) == Standalone(q)
    requires Represents(timeline, TableOf(rows, calls[..j]))
    ensures Represents(next, TableOf(rows, calls[..j + 1]))
    ensures |timeline| <= |next| && forall b :: 0 <= b < |timeline| ==> next[b].key == timeline[b].key
    ensures forall b :: |timeline| <= b < |next| ==> next[b].key.sub != POSITIONAL
  {
    hide PlaceOf, EntryAt, ResultOf, TableOf, LastStandalone, Placed, CallBlocks, Represents;
    ghost var t := TableOf(rows, calls[..j]);
    ghost var before := Placed(rows, calls[..j], Standalone(q));
    TableStandsAlone(rows, calls, j, q);
    StandaloneFound(timeline, rows, calls[..j], q);
    next := timeline;
    var a := LastStandalone(next, q);
    if a >= 0 {
      SlotIs(timeline, t, a);
      var e := Msg(Assistant(next[a].entry.message.content + [CallBlock(calls[j])], next[a].entry.message.stop));
      RepresentsEdit(next, t, a, e);
      t := t[next[a].key := e];
      next := next[a := Slot(next[a].key, e)];
    } else {
      var e := Msg(Assistant([CallBlock(calls[j])], ToolUse));
      assert CallBlocks(calls[..j], before) + [CallBlock(calls[j])] == [CallBlock(calls[j])];
      RepresentsPush(next, t, StandaloneKey(q, j), e);
      t := t[StandaloneKey(q, j) := e];
      next := next + [Slot(StandaloneKey(q, j), e)];
    }
    RepresentsPush(next, t, StandaloneResultKey(q, j), Msg(ResultOf(calls[j])));
    next := next + [Slot(StandaloneResultKey(q, j), Msg(ResultOf(calls[j])))];
  }

  method InsertCalls(rows: seq<Row>, calls: seq<Call>, start: seq<Slot>) returns (timeline: seq<Slot>)
    requires Represents(start, TableOf(rows, []))
    ensures Represents(timeline, TableOf(rows, calls))
  {
    hide PlaceOf, EntryAt, RowEntry, TableOf, Represents, Indexes;
    timeline := start;
    var index := IndexRows(timeline, rows);
    for j := 0 to |calls|
      invariant Represents(timeline, TableOf(rows, calls[..j]))
      invariant Indexes(index, timeline)
    {
      if calls[j].status != "completed" {
        TableSkips(rows, calls, j);
        continue;
      }
      var insertPos := InsertPos(rows, calls[j]);
      var p := MergeTarget(rows, calls[j], insertPos);
      PlaceByIndex(rows, calls[j], index, timeline, calls[..j]);
      ghost var before := timeline;
      if p >= 0 && p in index {
        IndexLeadsToRow(index, timeline, p);
        timeline := MergeCall(rows, calls, j, p, index[p], timeline);
      } else {
        timeline := PlaceStandalone(rows, calls, j, insertPos, timeline);
      }
      IndexKept(index, before, timeline);
    }
    assert calls[..|calls|] == calls;
  }

  lemma IndexLeadsToRow(index: map<nat, nat>, tl: seq<Slot>, p: nat)
    requires Indexes(index, tl) && p in index
    ensures index[p] < |tl| && tl[index[p]].key == RowKey(p)
  {
  }

  /** Phase 2 only edits slots in place and pushes new ones, so the index stays right. */
  lemma IndexKept(index: map<nat, nat>, tl: seq<Slot>, next: seq<Slot>)
    requires Indexes(index, tl)
    requires |tl| <= |next| && forall b :: 0 <= b < |tl| ==> next[b].key == tl[b].key
    requires forall b :: |tl| <= b < |next| ==> next[b].key.sub != POSITIONAL
    ensures Indexes(index, next)
  {
  }

  lemma PlaceByIndex(rows: seq<Row>, call: Call, index: map<nat, nat>, tl: seq<Slot>, done: seq<Call>)
    requires Represents(tl, TableOf(rows, done)) && Indexes(index, tl)
    ensures var insertPos := InsertPos(rows, call);
            var p := MergeTarget(rows, call, insertPos);
            PlaceOf(rows, call) == if p >= 0 && p in index then Merged(p) else Standalone(insertPos)
  {
    hide MergeTarget, InsertPos, TableOf, Represents, Indexes, RowEntry;
    var p := MergeTarget(rows, call, InsertPos(rows, call));
    if p >= 0 {
      IndexedIffKept(index, tl, rows, done, p);
    }
  }

  /** Phase 4: hand the pending thinking to the next assistant message, drop it at any other. */
  method FoldThinking(timeline: seq<Slot>) returns (result: seq<AgentMessage>)
    ensures result == Fold(timeline)
  {
    result := [];
    var pending: seq<Block> := [];
    for i := 0 to |timeline|
      invariant result == Fold(timeline[..i]) && pending == TrailingThinking(timeline[..i])
    {
      assert timeline[..i + 1][..i] == timeline[..i];
      match timeline[i].entry {
        case PendingThinking(block) =>
          pending := pending + [block];
        case Msg(Assistant(content, stop)) =>
          var merged := content;
          if pending != [] {
            merged := pending + content;
            pending := [];
          } else {
            assert [] + content == content;
          }
          result := result + [Assistant(merged, stop)];
        case Msg(m) =>
          pending := [];
          result := result + [m];
      }
    }
    assert timeline[..|timeline|] == timeline;
  }

  /** The whole conversion computes the closed form. */
  method ConvertHistoryMessages(rows: seq<Row>, calls: seq<Call>) returns (result: seq<AgentMessage>)
    ensures result == Reconstruct(rows, calls)
  {
    hide TableOf, Fold, Layout, SortByKey;
    var timeline := BuildTimeline(rows);
    if calls != [] {
      timeline := InsertCalls(rows, calls, timeline);
    }
    SortRepresents(timeline, TableOf(rows, calls));
    timeline := SortByKey(timeline);
    LayoutRepresents(rows, calls);
    SortedUnique(timeline, Layout(rows, calls), TableOf(rows, calls));
    result := FoldThinking(timeline);
  }
}
