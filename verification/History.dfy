// The commit graph that hashes commit to: ancestors over every parent, first-parent chains,
// hop distances, and everything a tip reaches. All of it is acyclic because a hash contains the
// hashes its object names.
module History {
  import opened Wrappers
  import opened Objects

  function Parents(h: Hash): seq<Hash> {
    match CommitFromBytes(h.bytes)
    case Some(c) => c.fields.parentHashes
    case None => []
  }

  /** Every commit reachable from `h` over all parents, `h` included. */
  ghost function Ancestors(h: Hash): set<Hash>
    decreases h
  {
    {h} + set p, x | p in Parents(h) && x in Ancestors(p) :: x
  }

  lemma {:induction false} AncestorOrder(a: Hash, h: Hash)
    requires a in Ancestors(h)
    ensures a == h || a < h
    decreases h
  {
    if a != h {
      var p :| p in Parents(h) && a in Ancestors(p);
      AncestorOrder(a, p);
    }
  }

  /** Histories have no cycles. */
  lemma AncestorAntisymmetric(a: Hash, b: Hash)
    requires a in Ancestors(b) && b in Ancestors(a)
    ensures a == b
  {
    AncestorOrder(a, b);
    AncestorOrder(b, a);
  }

  lemma {:induction false} AncestorTransitive(a: Hash, b: Hash, c: Hash)
    requires a in Ancestors(b) && b in Ancestors(c)
    ensures a in Ancestors(c)
    decreases c
  {
    if b != c {
      var p :| p in Parents(c) && b in Ancestors(p);
      AncestorTransitive(a, b, p);
    }
  }

  lemma ParentIsAncestor(p: Hash, h: Hash)
    requires p in Parents(h)
    ensures p in Ancestors(h)
  {
    assert p in Ancestors(p);
  }

  /** A set of commits that holds `h` and the parents of its members, except beyond `stop`, covers
      all of `h`'s ancestors but those of `stop`. */
  lemma {:induction false} ClosedSetCoversAncestors(s: set<Hash>, stop: Option<Hash>, h: Hash, x: Hash)
    requires h in s || stop == Some(h)
    requires forall c, p | c in s && p in Parents(c) :: p in s || stop == Some(p)
    requires x in Ancestors(h)
    ensures x in s || (stop.Some? && x in Ancestors(stop.value))
    decreases h
  {
    if x != h && stop != Some(h) {
      var p :| p in Parents(h) && x in Ancestors(p);
      ClosedSetCoversAncestors(s, stop, p, x);
    }
  }

  /** `x` can be reached from `h` in exactly `n` parent hops. */
  ghost predicate Hops(h: Hash, x: Hash, n: nat)
    decreases n
  {
    if n == 0 then x == h else exists p | p in Parents(h) :: Hops(p, x, n - 1)
  }

  lemma {:induction false} HopsExtend(h: Hash, y: Hash, n: nat, x: Hash)
    requires Hops(h, y, n) && x in Parents(y)
    ensures Hops(h, x, n + 1)
    decreases n
  {
    if n == 0 {
      assert Hops(x, x, 0);
    } else {
      var p :| p in Parents(h) && Hops(p, y, n - 1);
      HopsExtend(p, y, n - 1, x);
    }
  }

  lemma {:induction false} HopsSplit(h: Hash, x: Hash, n: nat) returns (y: Hash)
    requires Hops(h, x, n + 1)
    ensures Hops(h, y, n) && x in Parents(y)
    decreases n
  {
    var p :| p in Parents(h) && Hops(p, x, n);
    if n == 0 {
      y := h;
    } else {
      y := HopsSplit(p, x, n - 1);
    }
  }

  lemma {:induction false} HopsIsAncestor(h: Hash, x: Hash, n: nat)
    requires Hops(h, x, n)
    ensures x in Ancestors(h)
    decreases n
  {
    if n > 0 {
      var p :| p in Parents(h) && Hops(p, x, n - 1);
      HopsIsAncestor(p, x, n - 1);
    }
  }

  lemma {:induction false} AncestorHasHops(h: Hash, x: Hash) returns (n: nat)
    requires x in Ancestors(h)
    ensures Hops(h, x, n)
    decreases h
  {
    if x == h {
      n := 0;
    } else {
      var p :| p in Parents(h) && x in Ancestors(p);
      var m := AncestorHasHops(p, x);
      n := m + 1;
    }
  }

  function FirstParent(h: Hash): Option<Hash> {
    if Parents(h) == [] then None else Some(Parents(h)[0])
  }

  /** `x` is on the first-parent (mainline) chain that starts at `h`. */
  ghost predicate OnMainline(x: Hash, h: Hash)
    decreases h
  {
    x == h || (FirstParent(h).Some? && OnMainline(x, FirstParent(h).value))
  }

  /** The mainline, tip first. */
  ghost function Mainline(h: Hash): (chain: seq<Hash>)
    ensures forall x :: x in chain <==> OnMainline(x, h)
    ensures chain != [] && chain[0] == h
    decreases h
  {
    match FirstParent(h)
    case None => [h]
    case Some(p) => [h] + Mainline(p)
  }

  /** No commit of the history has two parents. */
  ghost predicate Linear(h: Hash) {
    forall c | c in Ancestors(h) :: |Parents(c)| <= 1
  }

  lemma LinearParent(h: Hash, p: Hash)
    requires Linear(h) && p in Parents(h)
    ensures Linear(p)
  {}

  lemma OneParent(h: Hash)
    requires Linear(h)
    ensures |Parents(h)| <= 1
  {
    assert h in Ancestors(h);
  }

  lemma AncestorsOverOneParent(h: Hash, x: Hash)
    requires |Parents(h)| <= 1
    ensures x in Ancestors(h) <==> x == h || (Parents(h) != [] && x in Ancestors(Parents(h)[0]))
  {
    if x in Ancestors(h) && x != h {
      var p :| p in Parents(h) && x in Ancestors(p);
      assert p == Parents(h)[0];
    }
  }

  lemma {:induction false} LinearMainline(h: Hash, x: Hash)
    requires Linear(h)
    ensures x in Ancestors(h) <==> OnMainline(x, h)
    decreases h
  {
    OneParent(h);
    AncestorsOverOneParent(h, x);
    if Parents(h) != [] {
      LinearParent(h, Parents(h)[0]);
      LinearMainline(Parents(h)[0], x);
    }
  }

  /** A commit together with the tree and the blobs it names directly. */
  function Own(c: Hash): set<Hash> {
    {c} + match CommitFromBytes(c.bytes)
    case None => {}
    case Some(commit) =>
      {commit.fields.treeHash} + TreeEntries(commit.fields.treeHash).Values
  }

  function TreeEntries(t: Hash): map<string, Hash> {
    match TreeFromBytes(t.bytes)
    case Some(tree) => tree.entries
    case None => map[]
  }

  /** Everything the object behind `tip` commits to: all ancestors, their trees, their blobs. */
  ghost function Reach(tip: Hash): set<Hash> {
    set c, x | c in Ancestors(tip) && x in Own(c) :: x
  }

  /** What the first-parent chain of `tip` commits to. */
  ghost function MainlineReach(tip: Hash): set<Hash> {
    set c, x | c in Mainline(tip) && x in Own(c) :: x
  }

  lemma ReachMonotone(a: Hash, tip: Hash)
    requires a in Ancestors(tip)
    ensures Reach(a) <= Reach(tip)
  {
    forall c, x | c in Ancestors(a) && x in Own(c) ensures x in Reach(tip) {
      AncestorTransitive(c, a, tip);
    }
  }

  lemma LinearReach(tip: Hash)
    requires Linear(tip)
    ensures MainlineReach(tip) == Reach(tip)
  {
    forall c ensures c in Mainline(tip) <==> c in Ancestors(tip) { LinearMainline(tip, c); }
  }

  /** `c` names a commit, the commit a tree, and the tree's entries blobs. */
  predicate TypedCommit(c: Hash) {
    && CommitFromBytes(c.bytes).Some?
    && var t := CommitFromBytes(c.bytes).value.fields.treeHash;
       TreeFromBytes(t.bytes).Some? && forall b | b in TreeEntries(t).Values :: BlobFromBytes(b.bytes).Some?
  }

  /** Each hash of the history is used for the kind of object it is. */
  ghost predicate WellTyped(tip: Hash) {
    forall c | c in Ancestors(tip) :: TypedCommit(c)
  }

  /** The store has, uncorrupted, everything `tip` commits to. */
  ghost predicate Complete(files: Files, tip: Hash) {
    forall h | h in Reach(tip) :: Holds(files, h)
  }
}
