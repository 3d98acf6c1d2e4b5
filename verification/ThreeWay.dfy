// The three-way rule, applied to every key of the union of base, ours and theirs.
module ThreeWay {
  import opened Wrappers
  import opened KeyOrder

  type Plain = map<string, string>

  datatype MergeEntry = Resolved(value: Option<string>) | Conflict(ours: Option<string>, theirs: Option<string>)

  function Get(m: Plain, k: string): Option<string> {
    if k in m then Some(m[k]) else None
  }

  function Rule(b: Option<string>, o: Option<string>, t: Option<string>): MergeEntry {
    if o == b then Resolved(t)
    else if t == b || o == t then Resolved(o)
    else Conflict(o, t)
  }

  function Union(base: Plain, ours: Plain, theirs: Plain): set<string> {
    base.Keys + ours.Keys + theirs.Keys
  }

  ghost function Merged(base: Plain, ours: Plain, theirs: Plain): map<string, MergeEntry> {
    map k | k in Union(base, ours, theirs) :: Rule(Get(base, k), Get(ours, k), Get(theirs, k))
  }

  lemma MergedIs(base: Plain, ours: Plain, theirs: Plain, out: map<string, MergeEntry>)
    requires forall k :: k in out <==> k in Union(base, ours, theirs)
    requires forall k | k in out :: out[k] == Rule(Get(base, k), Get(ours, k), Get(theirs, k))
    ensures out == Merged(base, ours, theirs)
  {}

  method ThreeWayMerge(base: Plain, ours: Plain, theirs: Plain) returns (out: map<string, MergeEntry>)
    ensures out == Merged(base, ours, theirs)
  {
    var keys := SortedKeys(base.Keys + ours.Keys + theirs.Keys);
    out := map[];
    for i := 0 to |keys|
      invariant forall k :: k in out <==> k in keys[..i]
      invariant forall k | k in out :: out[k] == Rule(Get(base, k), Get(ours, k), Get(theirs, k))
    {
      assert forall k :: k in keys[..i + 1] <==> k in keys[..i] || k == keys[i];
      var key := keys[i];
      var b, o, t := Get(base, key), Get(ours, key), Get(theirs, key);
      var entry := if o == b then Resolved(t) else if t == b || o == t then Resolved(o) else Conflict(o, t);
      out := out[key := entry];
    }
    assert keys[..|keys|] == keys;
    MergedIs(base, ours, theirs, out);
  }

  /** The keys both sides changed, and changed differently. */
  ghost function Conflicts(base: Plain, ours: Plain, theirs: Plain): set<string> {
    set k | k in Union(base, ours, theirs)
            && Get(ours, k) != Get(base, k) && Get(theirs, k) != Get(base, k) && Get(ours, k) != Get(theirs, k)
  }

  lemma ConflictsExactly(base: Plain, ours: Plain, theirs: Plain, k: string)
    ensures k in Conflicts(base, ours, theirs) <==>
              k in Merged(base, ours, theirs) && Merged(base, ours, theirs)[k].Conflict?
    ensures k in Conflicts(base, ours, theirs) ==>
              Merged(base, ours, theirs)[k] == Conflict(Get(ours, k), Get(theirs, k))
  {}

  /** One side's changes to the base: what became of each key it touched. */
  ghost function Delta(base: Plain, side: Plain): map<string, Option<string>> {
    map k | k in base.Keys + side.Keys && Get(side, k) != Get(base, k) :: Get(side, k)
  }

  ghost function Patch(delta: map<string, Option<string>>, m: Plain): Plain {
    map k | k in m.Keys + delta.Keys && (if k in delta then delta[k].Some? else true) ::
      if k in delta then delta[k].value else m[k]
  }

  /** The plaintext result when every entry is resolved. */
  ghost function ResultOf(merged: map<string, MergeEntry>): Plain {
    map k | k in merged && merged[k].Resolved? && merged[k].value.Some? :: merged[k].value.value
  }

  lemma PatchGet(delta: map<string, Option<string>>, m: Plain, k: string)
    ensures Get(Patch(delta, m), k) == if k in delta then delta[k] else Get(m, k)
  {}

  lemma SameGets(a: Plain, b: Plain)
    requires forall k :: Get(a, k) == Get(b, k)
    ensures a == b
  {
    forall k ensures k in a <==> k in b { assert Get(a, k) == Get(b, k); }
    forall k | k in a ensures a[k] == b[k] { assert Get(a, k) == Get(b, k); }
  }

  lemma ResultGet(base: Plain, ours: Plain, theirs: Plain, k: string)
    ensures var e := Rule(Get(base, k), Get(ours, k), Get(theirs, k));
            e.Resolved? ==> Get(ResultOf(Merged(base, ours, theirs)), k) == e.value
  {}

  lemma DeltaGet(base: Plain, side: Plain, k: string)
    ensures k in Delta(base, side) <==> Get(side, k) != Get(base, k)
    ensures k in Delta(base, side) ==> Delta(base, side)[k] == Get(side, k)
  {}

  /** Without conflicts the merge applies both sides' changes to the base, in either order. */
  lemma NoConflictAppliesBoth(base: Plain, ours: Plain, theirs: Plain)
    requires Conflicts(base, ours, theirs) == {}
    ensures var result := ResultOf(Merged(base, ours, theirs));
            && result == Patch(Delta(base, theirs), Patch(Delta(base, ours), base))
            && result == Patch(Delta(base, ours), Patch(Delta(base, theirs), base))
  {
    var result := ResultOf(Merged(base, ours, theirs));
    var a := Patch(Delta(base, theirs), Patch(Delta(base, ours), base));
    var b := Patch(Delta(base, ours), Patch(Delta(base, theirs), base));
    forall k ensures Get(result, k) == Get(a, k) && Get(result, k) == Get(b, k) {
      assert k !in Conflicts(base, ours, theirs);
      ResultGet(base, ours, theirs, k);
      DeltaGet(base, ours, k);
      DeltaGet(base, theirs, k);
      PatchGet(Delta(base, ours), base, k);
      PatchGet(Delta(base, theirs), base, k);
      PatchGet(Delta(base, theirs), Patch(Delta(base, ours), base), k);
      PatchGet(Delta(base, ours), Patch(Delta(base, theirs), base), k);
    }
    SameGets(result, a);
    SameGets(result, b);
  }

  function Swapped(e: MergeEntry): MergeEntry {
    match e
    case Resolved(v) => Resolved(v)
    case Conflict(o, t) => Conflict(t, o)
  }

  /** Exchanging the sides exchanges the sides of each conflict and nothing else. */
  lemma SidesAreSymmetric(base: Plain, ours: Plain, theirs: Plain)
    ensures Merged(base, theirs, ours) == map k | k in Merged(base, ours, theirs) ::
              Swapped(Merged(base, ours, theirs)[k])
  {
    assert Union(base, ours, theirs) == Union(base, theirs, ours);
  }

  /** Merging the same side again onto a conflict-free result changes nothing. */
  lemma MergingAgainIsIdle(base: Plain, ours: Plain, theirs: Plain)
    requires Conflicts(base, ours, theirs) == {}
    ensures var result := ResultOf(Merged(base, ours, theirs));
            Conflicts(base, result, theirs) == {} && ResultOf(Merged(base, result, theirs)) == result
  {
    var result := ResultOf(Merged(base, ours, theirs));
    forall k ensures k !in Conflicts(base, result, theirs)
      ensures Get(ResultOf(Merged(base, result, theirs)), k) == Get(result, k)
    {
      assert k !in Conflicts(base, ours, theirs);
      ResultGet(base, ours, theirs, k);
      ResultGet(base, result, theirs, k);
    }
    SameGets(ResultOf(Merged(base, result, theirs)), result);
  }
}
