/**
 Merging provider options into a request payload. `Merge` is characterised completely by what it shows
 at every path; from there: idempotence, and the exact condition under which merging is associative.
 */
module JsonMerge {
  import opened Prelude

  datatype Json =
    | Null
    | Bool(b: bool)
    | Number(n: int)
    | String(s: string)
    | Array(items: seq<Json>)
    | Object(fields: map<string, Json>)

  /** The patch's fields on top of the base's; where both hold an object, their merge. */
  function Merge(base: Json, patch: Json): Json
    decreases patch, 1
  {
    if base.Object? && patch.Object?
      then Object(map k | k in base.fields.Keys + patch.fields.Keys :: MergedField(base, patch, k))
    else patch
  }

  function MergedField(base: Json, patch: Json, k: string): Json
    requires base.Object? && patch.Object? && k in base.fields.Keys + patch.fields.Keys
    decreases patch, 0
  {
    if k !in patch.fields then base.fields[k]
    else if k in base.fields then Merge(base.fields[k], patch.fields[k])
    else patch.fields[k]
  }

  lemma MergeIs(base: Json, patch: Json, fields: map<string, Json>)
    requires base.Object? && patch.Object? && fields.Keys == base.fields.Keys + patch.fields.Keys
    requires forall k :: k in fields ==> fields[k] == MergedField(base, patch, k)
    ensures Merge(base, patch) == Object(fields)
  {
    hide MergedField;
    assert fields == map k | k in base.fields.Keys + patch.fields.Keys :: MergedField(base, patch, k);
  }

  class Cell {
    var value: Json

    constructor (v: Json)
      ensures value == v
    {
      value := v;
    }

    method MergeJsonValue(patch: Json)
      modifies this
      ensures value == Merge(old(value), patch)
      decreases patch, 1
    {
      if value.Object? && patch.Object? {
        var fields := MergeFields(value, patch);
        value := Object(fields);
      } else {
        value := patch;
      }
    }
  }

  /** The fields when the patch's keys but `keys` have been merged into the base's. */
  ghost predicate Merging(base: Json, patch: Json, fields: map<string, Json>, keys: set<string>)
    requires base.Object? && patch.Object?
  {
    && keys <= patch.fields.Keys && fields.Keys == base.fields.Keys + (patch.fields.Keys - keys)
    && forall k :: k in fields ==> fields[k] == if k in keys then base.fields[k] else MergedField(base, patch, k)
  }

  lemma MergingStep(base: Json, patch: Json, fields: map<string, Json>, keys: set<string>, key: string, v: Json)
    requires base.Object? && patch.Object? && Merging(base, patch, fields, keys) && key in keys
    requires v == MergedField(base, patch, key)
    ensures Merging(base, patch, fields[key := v], keys - {key})
  {
    hide Merge, MergedField;
  }

  /** The loop over the patch's keys, in any order. */
  method MergeFields(base: Json, patch: Json) returns (fields: map<string, Json>)
    requires base.Object? && patch.Object?
    ensures Merge(base, patch) == Object(fields)
    decreases patch, 0
  {
    fields := base.fields;
    var keys := patch.fields.Keys;
    while keys != {}
      invariant Merging(base, patch, fields, keys)
      decreases |keys|
    {
      hide Merge;
      var key :| key in keys;
      var merged := patch.fields[key];
      if key in fields {
        var nested := new Cell(fields[key]);
        nested.MergeJsonValue(merged);
        merged := nested.value;
      }
      MergingStep(base, patch, fields, keys, key, merged);
      fields := fields[key := merged];
      keys := keys - {key};
    }
    MergeIs(base, patch, fields);
  }

  // ---------------------------------------------------------------- what the merge shows at each path

  type Path = seq<string>

  function At(j: Json, path: Path): Option<Json> {
    if path == [] then Some(j)
    else if j.Object? && path[0] in j.fields then At(j.fields[path[0]], path[1..])
    else None
  }

  /** On the way to the path the patch holds something that is no object. */
  predicate Overwritten(patch: Json, path: Path) {
    path != [] && (!patch.Object? || (path[0] in patch.fields && Overwritten(patch.fields[path[0]], path[1..])))
  }

  /**
   The complete law: at a path the patch reaches, the merge shows the patch's value, merged into the
   base's where the base reaches it too; at any other path it shows what the base shows, or nothing
   where the patch has put a value that is no object on the way.
   */
  lemma {:induction false} MergeAt(base: Json, patch: Json, path: Path)
    ensures At(Merge(base, patch), path) ==
      if At(patch, path).Some? then
        Some(if At(base, path).Some? then Merge(At(base, path).value, At(patch, path).value)
             else At(patch, path).value)
      else if Overwritten(patch, path) then None
      else At(base, path)
    decreases patch
  {
    if path != [] && patch.Object? {
      var k := path[0];
      if base.Object? && k in base.fields && k in patch.fields {
        MergeAt(base.fields[k], patch.fields[k], path[1..]);
      }
      if k in patch.fields {
        Unreached(patch.fields[k], path[1..]);
      }
    }
  }

  lemma {:induction false} Unreached(j: Json, path: Path)
    ensures At(j, path).Some? ==> !Overwritten(j, path)
    decreases path
  {
    if path != [] && j.Object? && path[0] in j.fields {
      Unreached(j.fields[path[0]], path[1..]);
    }
  }

  // ---------------------------------------------------------------- consequences

  /** A value of the patch that is no object appears at its path, `null` like any other: nothing is ever deleted. */
  lemma PatchLeavesAppear(base: Json, patch: Json, path: Path)
    requires At(patch, path).Some? && !At(patch, path).value.Object?
    ensures At(Merge(base, patch), path) == At(patch, path)
  {
    MergeAt(base, patch, path);
  }

  /** What the patch neither reaches nor overwrites is kept. */
  lemma UntouchedPathsAreKept(base: Json, patch: Json, path: Path)
    requires At(patch, path).None? && !Overwritten(patch, path)
    ensures At(Merge(base, patch), path) == At(base, path)
  {
    MergeAt(base, patch, path);
  }

  /** Every field of a is in c too, and where both are objects, so are theirs. */
  predicate Covered(a: Json, c: Json)
    decreases a
  {
    a.Object? && c.Object? ==>
      forall k :: k in a.fields ==> k in c.fields && Covered(a.fields[k], c.fields[k])
  }

  /** Merging c into a leaves nothing of a if and only if a is covered by c. */
  lemma {:induction false} MergeIsPatchIff(a: Json, c: Json)
    ensures Merge(a, c) == c <==> Covered(a, c)
    decreases a
  {
    if a.Object? && c.Object? {
      forall k | k in a.fields && k in c.fields
          ensures Merge(a.fields[k], c.fields[k]) == c.fields[k] <==> Covered(a.fields[k], c.fields[k]) {
        MergeIsPatchIff(a.fields[k], c.fields[k]);
      }
      hide Covered;
      if Merge(a, c) == c {
        forall k | k in a.fields ensures k in c.fields && MergedField(a, c, k) == c.fields[k] {
          assert k in Merge(a, c).fields;
          assert Merge(a, c).fields[k] == MergedField(a, c, k);
        }
      }
      if forall k :: k in a.fields ==> k in c.fields && Merge(a.fields[k], c.fields[k]) == c.fields[k] {
        assert c.fields.Keys == a.fields.Keys + c.fields.Keys;
        MergeIs(a, c, c.fields);
      }
      CoveredFields(a, c);
    }
  }

  lemma CoveredFields(a: Json, c: Json)
    requires a.Object? && c.Object?
    ensures Covered(a, c) <==> forall k :: k in a.fields ==> k in c.fields && Covered(a.fields[k], c.fields[k])
  {
  }

  lemma {:induction false} CoveredByItself(j: Json)
    ensures Covered(j, j)
  {
    if j.Object? {
      forall k | k in j.fields ensures Covered(j.fields[k], j.fields[k]) {
        CoveredByItself(j.fields[k]);
      }
    }
  }

  /** A merged patch covers the patch: merging it again changes nothing. */
  lemma {:induction false} MergeIsIdempotent(base: Json, patch: Json)
    ensures Merge(Merge(base, patch), patch) == Merge(base, patch)
    decreases patch
  {
    var m := Merge(base, patch);
    if base.Object? && patch.Object? {
      forall k | k in m.fields ensures m.fields[k] == MergedField(m, patch, k) {
        assert m.fields[k] == MergedField(base, patch, k);
        if k in patch.fields {
          if k in base.fields {
            MergeIsIdempotent(base.fields[k], patch.fields[k]);
          } else {
            MergeWithItself(patch.fields[k]);
          }
        }
      }
      MergeIs(m, patch, m.fields);
    } else {
      MergeWithItself(patch);
    }
  }

  lemma MergeWithItself(j: Json)
    ensures Merge(j, j) == j
  {
    MergeIsPatchIff(j, j);
    CoveredByItself(j);
  }

  // ---------------------------------------------------------------- associativity

  /**
   Somewhere all three hold a value and the middle one is no object between two that are, and the first
   holds a field the last does not: one order of merging drops that field, the other keeps it.
   */
  predicate Conflicts(a: Json, b: Json, c: Json)
    decreases c
  {
    a.Object? && c.Object? &&
    if b.Object? then
      exists k :: k in a.fields && k in b.fields && k in c.fields && Conflicts(a.fields[k], b.fields[k], c.fields[k])
    else !Covered(a, c)
  }

  lemma AssociativeFields(a: Json, b: Json, c: Json, k: string)
    requires a.Object? && b.Object? && c.Object? && k in a.fields.Keys + b.fields.Keys + c.fields.Keys
    ensures k in Merge(Merge(a, b), c).fields && k in Merge(a, Merge(b, c)).fields
    ensures k in a.fields && k in b.fields && k in c.fields ==>
      && Merge(Merge(a, b), c).fields[k] == Merge(Merge(a.fields[k], b.fields[k]), c.fields[k])
      && Merge(a, Merge(b, c)).fields[k] == Merge(a.fields[k], Merge(b.fields[k], c.fields[k]))
    ensures !(k in a.fields && k in b.fields && k in c.fields) ==>
      Merge(Merge(a, b), c).fields[k] == Merge(a, Merge(b, c)).fields[k]
  {
    var l, r := Merge(a, b), Merge(b, c);
    assert k in a.fields.Keys + b.fields.Keys ==> l.fields[k] == MergedField(a, b, k);
    assert k in b.fields.Keys + c.fields.Keys ==> r.fields[k] == MergedField(b, c, k);
    assert Merge(l, c).fields[k] == MergedField(l, c, k);
    assert Merge(a, r).fields[k] == MergedField(a, r, k);
  }

  /** The exact condition: the two orders of merging three documents agree if and only if nothing conflicts. */
  lemma {:induction false} AssociativeIff(a: Json, b: Json, c: Json)
    ensures Merge(Merge(a, b), c) == Merge(a, Merge(b, c)) <==> !Conflicts(a, b, c)
    decreases c
  {
    if a.Object? && c.Object? && !b.Object? {
      MergeIsPatchIff(a, c);
    } else if a.Object? && b.Object? && c.Object? {
      var x, y := Merge(Merge(a, b), c), Merge(a, Merge(b, c));
      assert x.fields.Keys == y.fields.Keys;
      forall k | k in x.fields
        ensures k in y.fields
        ensures x.fields[k] == y.fields[k] <==>
          !(k in a.fields && k in b.fields && k in c.fields && Conflicts(a.fields[k], b.fields[k], c.fields[k]))
      {
        AssociativeFields(a, b, c, k);
        if k in a.fields && k in b.fields && k in c.fields {
          AssociativeIff(a.fields[k], b.fields[k], c.fields[k]);
        }
      }
      hide Merge, Covered;
      assert x == y <==> x.fields == y.fields;
    }
  }
}
