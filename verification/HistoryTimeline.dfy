/** The four-phase conversion, proved equal to the closed form. */
module HistoryTimeline {
  import opened Prelude
  import opened History

  // ---------------------------------------------------------------- timelines as tables

  type Table = imap<SortKey, Entry>

  ghost predicate DistinctKeys(tl: seq<Slot>) {
    forall a, b :: 0 <= a < b < |tl| ==> tl[a].key != tl[b].key
  }

  ghost predicate HasKey(tl: seq<Slot>, k: SortKey) {
    exists a :: 0 <= a < |tl| && tl[a].key == k
  }

  /** The timeline holds exactly the table's entries, one slot per key, in any order. */
  ghost predicate Represents(tl: seq<Slot>, t: Table) {
    && DistinctKeys(tl)
    && (forall a :: 0 <= a < |tl| ==> tl[a].key in t && t[tl[a].key] == tl[a].entry)
    && (forall k :: k in t ==> HasKey(tl, k))
  }

  ghost predicate StrictlySorted(tl: seq<Slot>) {
    forall a, b :: 0 <= a < b < |tl| ==> Before(tl[a].key, tl[b].key)
  }

  lemma SlotIs(tl: seq<Slot>, t: Table, a: nat)
    requires Represents(tl, t) && a < |tl|
    ensures tl[a].key in t && t[tl[a].key] == tl[a].entry
  {
  }

  lemma RepresentsPush(tl: seq<Slot>, t: Table, k: SortKey, e: Entry)
    requires Represents(tl, t) && k !in t
    ensures Represents(tl + [Slot(k, e)], t[k := e])
  {
    var tl' := tl + [Slot(k, e)];
    forall k' | k' in t[k := e] ensures HasKey(tl', k') {
      if k' == k {
        assert tl'[|tl|].key == k;
      } else {
        assert HasKey(tl, k');
        var a :| 0 <= a < |tl| && tl[a].key == k';
        assert tl'[a].key == k';
      }
    }
  }

  lemma RepresentsEdit(tl: seq<Slot>, t: Table, a: nat, e: Entry)
    requires Represents(tl, t) && a < |tl|
    ensures Represents(tl[a := Slot(tl[a].key, e)], t[tl[a].key := e])
  {
    var tl' := tl[a := Slot(tl[a].key, e)];
    forall k | k in t[tl[a].key := e] ensures HasKey(tl', k) {
      assert HasKey(tl, k);
      var b :| 0 <= b < |tl| && tl[b].key == k;
      assert tl'[b].key == k;
    }
  }

  /** Only one arrangement of a table is strictly sorted. */
  lemma {:induction false} SortedUnique(a: seq<Slot>, b: seq<Slot>, t: Table)
    requires Represents(a, t) && Represents(b, t) && StrictlySorted(a) && StrictlySorted(b)
    ensures a == b
    decreases |a|
  {
    hide Represents, StrictlySorted;
    if a == [] {
      EmptyAlike(a, b, t);
    } else if b == [] {
      EmptyAlike(b, a, t);
    } else {
      FirstIsLeast(a, b, t);
      var k := a[0].key;
      TailRepresents(a, t);
      TailRepresents(b, t);
      SortedUnique(a[1..], b[1..], t - {k});
      assert a == [a[0]] + a[1..] && b == [b[0]] + b[1..];
    }
  }

  lemma EmptyAlike(a: seq<Slot>, b: seq<Slot>, t: Table)
    requires Represents(a, t) && Represents(b, t) && a == []
    ensures b == []
  {
    assert b != [] ==> HasKey(a, b[0].key);
  }

  lemma FirstKey(tl: seq<Slot>, t: Table, k: SortKey)
    requires Represents(tl, t) && StrictlySorted(tl) && k in t
    ensures tl != [] && (tl[0].key == k || Before(tl[0].key, k))
  {
    assert HasKey(tl, k);
  }

  lemma FirstIsLeast(a: seq<Slot>, b: seq<Slot>, t: Table)
    requires Represents(a, t) && Represents(b, t) && StrictlySorted(a) && StrictlySorted(b) && a != []
    ensures b != [] && a[0] == b[0]
  {
    FirstKey(b, t, a[0].key);
    FirstKey(a, t, b[0].key);
  }

  lemma TailRepresents(tl: seq<Slot>, t: Table)
    requires Represents(tl, t) && StrictlySorted(tl) && tl != []
    ensures Represents(tl[1..], t - {tl[0].key}) && StrictlySorted(tl[1..])
  {
    forall k | k in t - {tl[0].key} ensures HasKey(tl[1..], k) {
      assert HasKey(tl, k);
      var a :| 0 <= a < |tl| && tl[a].key == k;
      assert tl[1..][a - 1].key == k;
    }
  }

  // ---------------------------------------------------------------- the sort of phase 3

  function InsertByKey(tl: seq<Slot>, s: Slot): seq<Slot> {
    if tl == [] || Before(s.key, tl[0].key) then [s] + tl
    else [tl[0]] + InsertByKey(tl[1..], s)
  }

  /** The library's stable sort by key. */
  function SortByKey(tl: seq<Slot>): seq<Slot> {
    if tl == [] then [] else InsertByKey(SortByKey(tl[..|tl| - 1]), tl[|tl| - 1])
  }

  lemma {:induction false} InsertMembers(tl: seq<Slot>, s: Slot)
    ensures forall x :: x in InsertByKey(tl, s) <==> x == s || x in tl
    ensures |InsertByKey(tl, s)| == |tl| + 1
  {
    if tl != [] && !Before(s.key, tl[0].key) {
      InsertMembers(tl[1..], s);
      assert tl == [tl[0]] + tl[1..];
    }
  }

  lemma {:induction false} InsertSorted(tl: seq<Slot>, s: Slot)
    requires StrictlySorted(tl) && forall a :: 0 <= a < |tl| ==> tl[a].key != s.key
    ensures StrictlySorted(InsertByKey(tl, s))
  {
    if tl != [] && !Before(s.key, tl[0].key) {
      InsertSorted(tl[1..], s);
      InsertMembers(tl[1..], s);
      var rest := InsertByKey(tl[1..], s);
      forall b | 0 <= b < |rest| ensures Before(tl[0].key, rest[b].key) {
        assert rest[b] in rest;
        if rest[b] != s {
          assert rest[b] in tl[1..];
        }
      }
    }
  }

  lemma {:induction false} SortMembers(tl: seq<Slot>)
    ensures forall x :: x in SortByKey(tl) <==> x in tl
    ensures |SortByKey(tl)| == |tl|
  {
    if tl != [] {
      var init, last := tl[..|tl| - 1], tl[|tl| - 1];
      SortMembers(init);
      InsertMembers(SortByKey(init), last);
      assert tl == init + [last];
    }
  }

  lemma {:induction false} SortSorts(tl: seq<Slot>)
    requires DistinctKeys(tl)
    ensures StrictlySorted(SortByKey(tl))
  {
    if tl != [] {
      var init, last := tl[..|tl| - 1], tl[|tl| - 1];
      SortSorts(init);
      SortMembers(init);
      var s := SortByKey(init);
      forall a | 0 <= a < |s| ensures s[a].key != last.key {
        assert s[a] in s;
        assert s[a] in init;
      }
      InsertSorted(s, last);
    }
  }

  /** Sorting keeps the table and orders it. */
  lemma SortRepresents(tl: seq<Slot>, t: Table)
    requires Represents(tl, t)
    ensures Represents(SortByKey(tl), t) && StrictlySorted(SortByKey(tl))
  {
    SortMembers(tl);
    SortSorts(tl);
    var s := SortByKey(tl);
    forall a | 0 <= a < |s| ensures s[a].key in t && t[s[a].key] == s[a].entry {
      assert s[a] in s;
    }
    forall a, b | 0 <= a < b < |s| ensures s[a].key != s[b].key {
      assert Before(s[a].key, s[b].key);
    }
    forall k | k in t ensures HasKey(s, k) {
      assert HasKey(tl, k);
      var a :| 0 <= a < |tl| && tl[a].key == k;
      assert tl[a] in s;
    }
  }

  // ---------------------------------------------------------------- the table of a history

  /** The call whose result has this sequence number, if any can. */
  function ResultIndex(seqNo: nat): (r: Option<nat>)
    ensures r.Some? ==> seqNo == r.value * 2 + 1
    ensures r.None? ==> seqNo % 2 == 0
  {
    if seqNo % 2 == 1 then Some(seqNo / 2) else None
  }

  lemma ResultIndexOf(i: nat)
    ensures ResultIndex(i * 2 + 1) == Some(i) && ResultIndex(i * 2) == None
  {
  }

  function EntryAt(rows: seq<Row>, calls: seq<Call>, k: SortKey): Option<Entry> {
    if k.sub == POSITIONAL then
      if k.seqNo == 0 then RowMessage(rows, calls, k.position) else None
    else if k.sub == STANDALONE_TOOL_CALL then
      var indices := Placed(rows, calls, Standalone(k.position));
      var i := ResultIndex(k.seqNo);
      if i.Some? && i.value in indices then Some(Msg(ResultOf(calls[i.value])))
      else if indices != [] && k.seqNo == indices[0] * 2 then Some(Msg(StandaloneMessage(calls, indices)))
      else None
    else if k.sub == MERGED_TOOL_RESULT then
      var i := ResultIndex(k.seqNo);
      if k.position > 0 && i.Some? && i.value in Placed(rows, calls, Merged(k.position - 1))
      then Some(Msg(ResultOf(calls[i.value])))
      else None
    else None
  }

  ghost function TableOf(rows: seq<Row>, calls: seq<Call>): Table {
    imap k | EntryAt(rows, calls, k).Some? :: EntryAt(rows, calls, k).value
  }

  lemma PlacedNext(rows: seq<Row>, calls: seq<Call>, j: nat, w: Place)
    requires j < |calls|
    ensures Placed(rows, calls[..j + 1], w)
         == if calls[j].status == "completed" && PlaceOf(rows, calls[j]) == w then Placed(rows, calls[..j], w) + [j]
            else Placed(rows, calls[..j], w)
  {
    assert calls[..j + 1][..j] == calls[..j];
  }

  lemma CallBlocksPrefix(calls: seq<Call>, j: nat, indices: seq<nat>)
    requires j < |calls| && forall k :: 0 <= k < |indices| ==> indices[k] < j
    ensures CallBlocks(calls[..j + 1], indices) == CallBlocks(calls[..j], indices)
    ensures CallBlocks(calls[..j + 1], indices + [j]) == CallBlocks(calls[..j], indices) + [CallBlock(calls[j])]
  {
  }

  lemma EntryUnchanged(rows: seq<Row>, calls: seq<Call>, j: nat, k: SortKey)
    requires j < |calls|
    requires k.sub == POSITIONAL ==>
            Placed(rows, calls[..j + 1], Merged(k.position)) == Placed(rows, calls[..j], Merged(k.position))
    requires k.sub == STANDALONE_TOOL_CALL ==>
               Placed(rows, calls[..j + 1], Standalone(k.position)) == Placed(rows, calls[..j], Standalone(k.position))
    requires k.sub == MERGED_TOOL_RESULT && k.position > 0 ==>
               Placed(rows, calls[..j + 1], Merged(k.position - 1)) == Placed(rows, calls[..j], Merged(k.position - 1))
    ensures EntryAt(rows, calls[..j + 1], k) == EntryAt(rows, calls[..j], k)
  {
    if k.sub == POSITIONAL {
      CallBlocksPrefix(calls, j, Placed(rows, calls[..j], Merged(k.position)));
    } else if k.sub == STANDALONE_TOOL_CALL {
      CallBlocksPrefix(calls, j, Placed(rows, calls[..j], Standalone(k.position)));
    }
  }

  lemma TableSkips(rows: seq<Row>, calls: seq<Call>, j: nat)
    requires j < |calls| && calls[j].status != "completed"
    ensures TableOf(rows, calls[..j + 1]) == TableOf(rows, calls[..j])
  {
    hide EntryAt;
    forall k ensures EntryAt(rows, calls[..j + 1], k) == EntryAt(rows, calls[..j], k) {
      PlacedNext(rows, calls, j, Merged(k.position));
      PlacedNext(rows, calls, j, Standalone(k.position));
      if k.position > 0 {
        PlacedNext(rows, calls, j, Merged(k.position - 1));
      }
      EntryUnchanged(rows, calls, j, k);
    }
  }

  /** The entry of a row that calls may merge into. */
  lemma MergeableRow(rows: seq<Row>, calls: seq<Call>, p: nat)
    requires p < |rows| && RowEntry(rows[p]) == Some(Msg(Assistant([Text(rows[p].content)], Stop)))
    ensures var indices := Placed(rows, calls, Merged(p));
            EntryAt(rows, calls, RowKey(p))
            == Some(Msg(Assistant([Text(rows[p].content)] + CallBlocks(calls, indices),
                                  if indices == [] then Stop else ToolUse)))
  {
    hide Placed, PlaceOf, RowEntry;
    var indices := Placed(rows, calls, Merged(p));
    assert indices == [] ==> [Text(rows[p].content)] + CallBlocks(calls, indices) == [Text(rows[p].content)];
  }

  /** The row's entry before and after one more call is merged into it. */
  lemma MergedRow(rows: seq<Row>, calls: seq<Call>, j: nat, p: nat)
    requires j < |calls| && calls[j].status == "completed" && PlaceOf(rows, calls[j]) == Merged(p)
    ensures var before := EntryAt(rows, calls[..j], RowKey(p));
            && before.Some? && before.value.Msg? && before.value.message.Assistant?
            && EntryAt(rows, calls[..j + 1], RowKey(p))
               == Some(Msg(Assistant(before.value.message.content + [CallBlock(calls[j])], ToolUse)))
  {
    hide EntryAt, Placed, PlaceOf, RowEntry, CallBlocks, RowKey;
    PlacedNext(rows, calls, j, Merged(p));
    MergeableRow(rows, calls[..j], p);
    MergeableRow(rows, calls[..j + 1], p);
    var indices := Placed(rows, calls[..j], Merged(p));
    CallBlocksPrefix(calls, j, indices);
    var text := [Text(rows[p].content)];
    assert text + (CallBlocks(calls[..j], indices) + [CallBlock(calls[j])])
        == text + CallBlocks(calls[..j], indices) + [CallBlock(calls[j])];
  }

  lemma MergedResult(rows: seq<Row>, calls: seq<Call>, j: nat, p: nat, k: SortKey)
    requires j < |calls| && calls[j].status == "completed" && PlaceOf(rows, calls[j]) == Merged(p)
    requires k.sub == MERGED_TOOL_RESULT && k.position == p + 1
    ensures EntryAt(rows, calls[..j + 1], k)
         == if k == MergedKey(p, j) then Some(Msg(ResultOf(calls[j]))) else EntryAt(rows, calls[..j], k)
    ensures EntryAt(rows, calls[..j], MergedKey(p, j)) == None
  {
    hide ResultIndex, ResultOf, Placed, PlaceOf;
    ResultIndexOf(j);
    PlacedNext(rows, calls, j, Merged(p));
    var indices := Placed(rows, calls[..j], Merged(p));
    assert forall x :: x in indices + [j] <==> x in indices || x == j;
  }

  lemma TableMerges(rows: seq<Row>, calls: seq<Call>, j: nat, p: nat)
    requires j < |calls| && calls[j].status == "completed" && PlaceOf(rows, calls[j]) == Merged(p)
    ensures var t := TableOf(rows, calls[..j]);
            && RowKey(p) in t && t[RowKey(p)].Msg? && t[RowKey(p)].message.Assistant?
            && MergedKey(p, j) !in t
            && TableOf(rows, calls[..j + 1])
               == t[RowKey(p) := Msg(Assistant(t[RowKey(p)].message.content + [CallBlock(calls[j])], ToolUse))]
                   [MergedKey(p, j) := Msg(ResultOf(calls[j]))]
  {
    hide EntryAt, PlaceOf, ResultOf;
    var t := TableOf(rows, calls[..j]);
    MergedRow(rows, calls, j, p);
    MergedResult(rows, calls, j, p, MergedKey(p, j));
    forall k | k != RowKey(p) && k != MergedKey(p, j)
      ensures EntryAt(rows, calls[..j + 1], k) == EntryAt(rows, calls[..j], k)
    {
      PlacedNext(rows, calls, j, Standalone(k.position));
      PlacedNext(rows, calls, j, Merged(k.position));
      if k.sub == MERGED_TOOL_RESULT && k.position == p + 1 {
        MergedResult(rows, calls, j, p, k);
      } else if k.sub == POSITIONAL && k.position == p {
        NoOtherRowKey(rows, calls, j, k);
      } else {
        if k.position > 0 {
          PlacedNext(rows, calls, j, Merged(k.position - 1));
        }
        EntryUnchanged(rows, calls, j, k);
      }
    }
    var t' := t[RowKey(p) := Msg(Assistant(t[RowKey(p)].message.content + [CallBlock(calls[j])], ToolUse))]
               [MergedKey(p, j) := Msg(ResultOf(calls[j]))];
    assert forall k :: k in TableOf(rows, calls[..j + 1]) <==> k in t';
  }

  lemma NoOtherRowKey(rows: seq<Row>, calls: seq<Call>, j: nat, k: SortKey)
    requires j < |calls| && k.sub == POSITIONAL && k != RowKey(k.position)
    ensures EntryAt(rows, calls[..j + 1], k) == None == EntryAt(rows, calls[..j], k)
  {
  }

  /** The entry at the key a standalone message has when its first call is `first`. */
  lemma MessageEntry(rows: seq<Row>, calls: seq<Call>, q: nat, first: nat)
    ensures var indices := Placed(rows, calls, Standalone(q));
            EntryAt(rows, calls, StandaloneKey(q, first))
            == if indices != [] && first == indices[0] then Some(Msg(StandaloneMessage(calls, indices))) else None
  {
    hide Placed, PlaceOf, ResultOf, CallBlocks, ResultIndex, StandaloneMessage;
    ResultIndexOf(first);
  }

  /** The entry at the key the result of call i has at q. */
  lemma ResultEntry(rows: seq<Row>, calls: seq<Call>, q: nat, i: nat)
    ensures EntryAt(rows, calls, StandaloneResultKey(q, i))
         == if i in Placed(rows, calls, Standalone(q)) then Some(Msg(ResultOf(calls[i]))) else None
  {
    hide Placed, PlaceOf, ResultOf, CallBlocks, ResultIndex, StandaloneMessage;
    ResultIndexOf(i);
  }

  /** The standalone message at q before and after one more call is placed there. */
  lemma StandaloneMessageAt(rows: seq<Row>, calls: seq<Call>, j: nat, q: nat)
    requires j < |calls| && calls[j].status == "completed" && PlaceOf(rows, calls[j]) == Standalone(q)
    ensures var before := Placed(rows, calls[..j], Standalone(q));
            var first := if before == [] then j else before[0];
            && EntryAt(rows, calls[..j + 1], StandaloneKey(q, first))
               == Some(Msg(Assistant(CallBlocks(calls[..j], before) + [CallBlock(calls[j])], ToolUse)))
            && EntryAt(rows, calls[..j], StandaloneKey(q, first))
               == if before == [] then None else Some(Msg(StandaloneMessage(calls[..j], before)))
  {
    var before := Placed(rows, calls[..j], Standalone(q));
    var first := if before == [] then j else before[0];
    PlacedNext(rows, calls, j, Standalone(q));
    CallBlocksPrefix(calls, j, before);
    MessageEntry(rows, calls[..j + 1], q, first);
    MessageEntry(rows, calls[..j], q, first);
    hide EntryAt, Placed, PlaceOf, CallBlocks, StandaloneKey;
    assert (before + [j])[0] == first;
  }

  /** The result of the new call, and no other result at q, is new. */
  lemma StandaloneResultAt(rows: seq<Row>, calls: seq<Call>, j: nat, q: nat, i: nat)
    requires j < |calls| && calls[j].status == "completed" && PlaceOf(rows, calls[j]) == Standalone(q)
    ensures EntryAt(rows, calls[..j + 1], StandaloneResultKey(q, i))
         == if i == j then Some(Msg(ResultOf(calls[j]))) else EntryAt(rows, calls[..j], StandaloneResultKey(q, i))
    ensures EntryAt(rows, calls[..j], StandaloneResultKey(q, j)) == None
  {
    PlacedNext(rows, calls, j, Standalone(q));
    ResultEntry(rows, calls[..j + 1], q, i);
    ResultEntry(rows, calls[..j], q, i);
    ResultEntry(rows, calls[..j], q, j);
    hide EntryAt, PlaceOf, ResultOf, StandaloneResultKey, Placed;
    var before := Placed(rows, calls[..j], Standalone(q));
    assert forall x :: x in before + [j] <==> x in before || x == j;
  }

  /** Any other key at q is unused, before and after. */
  lemma StandaloneOther(rows: seq<Row>, calls: seq<Call>, j: nat, q: nat, k: SortKey)
    requires j < |calls| && calls[j].status == "completed" && PlaceOf(rows, calls[j]) == Standalone(q)
    requires k.sub == STANDALONE_TOOL_CALL && k.position == q && ResultIndex(k.seqNo).None?
    requires var before := Placed(rows, calls[..j], Standalone(q));
             k.seqNo != (if before == [] then j else before[0]) * 2
    ensures EntryAt(rows, calls[..j + 1], k) == None == EntryAt(rows, calls[..j], k)
  {
    hide Placed, PlaceOf, ResultOf, StandaloneMessage, ResultIndex;
    PlacedNext(rows, calls, j, Standalone(q));
    var before := Placed(rows, calls[..j], Standalone(q));
    assert (before + [j])[0] == if before == [] then j else before[0];
  }

  lemma TableStandsAlone(rows: seq<Row>, calls: seq<Call>, j: nat, q: nat)
    requires j < |calls| && calls[j].status == "completed" && PlaceOf(rows, calls[j]) == Standalone(q)
    ensures var t := TableOf(rows, calls[..j]);
            var before := Placed(rows, calls[..j], Standalone(q));
            var first := if before == [] then j else before[0];
            && StandaloneResultKey(q, j) !in t
            && (before == [] <==> StandaloneKey(q, first) !in t)
            && (before != [] ==> t[StandaloneKey(q, first)] == Msg(StandaloneMessage(calls[..j], before)))
            && TableOf(rows, calls[..j + 1])
               == t[StandaloneKey(q, first) :=
                    Msg(Assistant(CallBlocks(calls[..j], before) + [CallBlock(calls[j])], ToolUse))]
                   [StandaloneResultKey(q, j) := Msg(ResultOf(calls[j]))]
  {
    hide EntryAt, PlaceOf, ResultOf, Placed, CallBlocks, ResultIndex;
    var t := TableOf(rows, calls[..j]);
    var before := Placed(rows, calls[..j], Standalone(q));
    var first := if before == [] then j else before[0];
    StandaloneMessageAt(rows, calls, j, q);
    StandaloneResultAt(rows, calls, j, q, j);
    forall k | k != StandaloneKey(q, first) && k != StandaloneResultKey(q, j)
      ensures EntryAt(rows, calls[..j + 1], k) == EntryAt(rows, calls[..j], k)
    {
      if k.sub == STANDALONE_TOOL_CALL && k.position == q {
        if ResultIndex(k.seqNo).Some? {
          StandaloneResultAt(rows, calls, j, q, ResultIndex(k.seqNo).value);
        } else {
          StandaloneOther(rows, calls, j, q, k);
        }
      } else {
        PlacedNext(rows, calls, j, Standalone(k.position));
        PlacedNext(rows, calls, j, Merged(k.position));
        if k.position > 0 {
          PlacedNext(rows, calls, j, Merged(k.position - 1));
        }
        EntryUnchanged(rows, calls, j, k);
      }
    }
    var t' := t[StandaloneKey(q, first) :=
                Msg(Assistant(CallBlocks(calls[..j], before) + [CallBlock(calls[j])], ToolUse))]
               [StandaloneResultKey(q, j) := Msg(ResultOf(calls[j]))];
    assert forall k :: k in TableOf(rows, calls[..j + 1]) <==> k in t';
  }
}
