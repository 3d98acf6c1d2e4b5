// Nearest common ancestor: the full ancestor set of one side, then breadth-first from the other.
module MergeBase {
  import opened Wrappers
  import opened Objects
  import opened History
  import opened Vcs

  ghost predicate Loadable(files: Files, h: Hash) {
    forall c | c in Ancestors(h) :: LoadCommit(files, c).Ok?
  }

  ghost predicate ParentsKept(seen: set<Hash>, queue: seq<Hash>) {
    forall c, p | c in seen && p in Parents(c) :: p in seen || p in queue
  }

  ghost predicate ParentClosed(all: set<Hash>) {
    forall c, p | c in all && p in Parents(c) :: p in all
  }

  lemma AncestorsParentClosed(start: Hash)
    ensures start in Ancestors(start) && ParentClosed(Ancestors(start))
  {
    forall c, p | c in Ancestors(start) && p in Parents(c) ensures p in Ancestors(start) {
      ParentIsAncestor(p, c);
      AncestorTransitive(p, c, start);
    }
  }

  /** What both worklist walks keep, for `all` the ancestors of `start`: nothing outside `all` is
      met, and nothing met is forgotten. */
  ghost predicate Walking(all: set<Hash>, start: Hash, seen: set<Hash>, queue: seq<Hash>) {
    && ParentClosed(all)
    && (forall x | x in queue :: x in all)
    && seen <= all
    && (start in seen || start in queue)
    && ParentsKept(seen, queue)
  }

  lemma WalkSkips(all: set<Hash>, start: Hash, seen: set<Hash>, queue: seq<Hash>)
    requires Walking(all, start, seen, queue) && queue != [] && queue[0] in seen
    ensures Walking(all, start, seen, queue[1..])
  {}

  lemma WalkExpands(all: set<Hash>, start: Hash, seen: set<Hash>, queue: seq<Hash>)
    requires Walking(all, start, seen, queue) && queue != [] && queue[0] !in seen
    ensures Walking(all, start, seen + {queue[0]}, queue[1..] + Parents(queue[0]))
    ensures queue[0] in all
  {}

  lemma WalkEnds(start: Hash, seen: set<Hash>)
    requires Walking(Ancestors(start), start, seen, [])
    ensures seen == Ancestors(start)
  {
    forall x | x in Ancestors(start) ensures x in seen {
      ClosedSetCoversAncestors(seen, None, start, x);
    }
  }

  method AllAncestors(store: LocalObjectStore, start: Hash) returns (r: Result<set<Hash>, VcsError>)
    ensures r.Ok? <==> Loadable(store.files, start)
    ensures r.Ok? ==> r.value == Ancestors(start)
  {
    var seen: set<Hash> := {};
    var queue := [start];
    ghost var all := Ancestors(start);
    AncestorsParentClosed(start);
    while queue != []
      invariant Walking(all, start, seen, queue)
      invariant forall c | c in seen :: LoadCommit(store.files, c).Ok?
      decreases all - seen, |queue|
    {
      var hash := queue[0];
      if hash in seen {
        WalkSkips(all, start, seen, queue);
        queue := queue[1..];
        continue;
      }
      WalkExpands(all, start, seen, queue);
      seen := seen + {hash};
      var loaded := LoadCommit(store.files, hash);
      if loaded.Err? {
        return Err(loaded.error);
      }
      queue := queue[1..] + loaded.value.fields.parentHashes;
    }
    WalkEnds(start, seen);
    return Ok(seen);
  }

  ghost predicate Common(x: Hash, a: Hash, b: Hash) {
    x in Ancestors(a) && x in Ancestors(b)
  }

  /** A common ancestor that no other common ancestor beats in hops from `b`; `None` when the
      histories are disjoint. */
  ghost predicate NearestFrom(a: Hash, b: Hash, found: Option<Hash>) {
    match found
    case None => Ancestors(a) !! Ancestors(b)
    case Some(x) =>
      && Common(x, a, b)
      && exists n: nat :: Hops(b, x, n) && forall y, m: nat | Common(y, a, b) && Hops(b, y, m) :: n <= m
  }

  ghost function Labels(count: nat, level: nat): seq<nat> {
    seq(count, _ => level)
  }

  /** The breadth-first queue at level `d`: hop labels of the queued commits, non-decreasing and
      at most one level apart. */
  ghost predicate Levelled(b: Hash, queue: seq<Hash>, depth: seq<nat>, d: nat) {
    && |depth| == |queue|
    && (forall i | 0 <= i < |queue| :: Hops(b, queue[i], depth[i]) && d <= depth[i] <= d + 1)
    && (forall i, j | 0 <= i < j < |queue| :: depth[i] <= depth[j])
  }

  /** Everything fewer than `d` hops away was seen; what is `d` hops away was seen or is queued. */
  ghost predicate Explored(b: Hash, seen: set<Hash>, queue: seq<Hash>, depth: seq<nat>, d: nat)
    requires |depth| == |queue|
  {
    && (forall x, n: nat | Hops(b, x, n) && n < d :: x in seen)
    && (forall x | Hops(b, x, d) :: x in seen || exists i | 0 <= i < |queue| :: queue[i] == x && depth[i] == d)
  }

  lemma BfsStarts(b: Hash)
    ensures Levelled(b, [b], [0], 0) && Explored(b, {}, [b], [0], 0)
  {
    assert Hops(b, b, 0);
    forall x | Hops(b, x, 0)
      ensures exists i | 0 <= i < |[b]| :: [b][i] == x && [0][i] == 0
    {
      assert [b][0] == x && [0][0] == 0;
    }
  }

  /** When nothing of level `d` is queued any more, the walk has moved to level `d + 1`. */
  lemma NextLevel(b: Hash, seen: set<Hash>, queue: seq<Hash>, depth: seq<nat>, d: nat)
    requires Levelled(b, queue, depth, d) && Explored(b, seen, queue, depth, d) && ParentsKept(seen, queue)
    requires queue != [] && depth[0] != d
    ensures Levelled(b, queue, depth, d + 1) && Explored(b, seen, queue, depth, d + 1)
  {
    forall i | 0 <= i < |queue| ensures depth[i] == d + 1 {
      if i > 0 { assert depth[0] <= depth[i]; }
    }
    forall x | Hops(b, x, d + 1)
      ensures x in seen || exists i | 0 <= i < |queue| :: queue[i] == x && depth[i] == d + 1
    {
      var y := HopsSplit(b, x, d);
      assert y in seen;
      assert x in seen || x in queue;
    }
  }

  /** No common ancestor is nearer to `b` than `n` hops. */
  ghost predicate NoneNearer(a: Hash, b: Hash, n: nat) {
    forall y, m: nat | Common(y, a, b) && Hops(b, y, m) :: n <= m
  }

  /** Every common ancestor is further from `b` than `n` hops. */
  ghost predicate AllFurther(a: Hash, b: Hash, n: nat) {
    forall y, m: nat | Common(y, a, b) && Hops(b, y, m) :: n < m
  }

  /** What can make the search fail: an ancestor of `a` that does not load, or a commit met from `b` no
      further away than the nearest common ancestor and not one itself. */
  ghost predicate InTheWay(files: Files, a: Hash, b: Hash, x: Hash) {
    && LoadCommit(files, x).Err?
    && (x in Ancestors(a) || exists n: nat :: Hops(b, x, n) && NoneNearer(a, b, n))
  }

  /** What must make it fail: the same, but met strictly before every common ancestor. */
  ghost predicate MustBeRead(files: Files, a: Hash, b: Hash, x: Hash) {
    && LoadCommit(files, x).Err?
    && (x in Ancestors(a) || exists n: nat :: Hops(b, x, n) && AllFurther(a, b, n))
  }

  lemma MetOnTheWay(files: Files, a: Hash, b: Hash, x: Hash, seen: set<Hash>, d: nat)
    requires (forall y, n: nat | Hops(b, y, n) && n < d :: y in seen) && seen !! Ancestors(a) && Hops(b, x, d)
               && LoadCommit(files, x).Err?
    ensures InTheWay(files, a, b, x)
  {
    assert NoneNearer(a, b, d);
  }

  method MergeBaseOf(store: LocalObjectStore, a: Hash, b: Hash) returns (r: Result<Option<Hash>, VcsError>)
    ensures r.Ok? ==> NearestFrom(a, b, r.value)
    ensures r.Err? ==> exists x :: InTheWay(store.files, a, b, x)
    ensures (exists x :: MustBeRead(store.files, a, b, x)) ==> r.Err?
  {
    var ancestors := AllAncestors(store, a);
    if ancestors.Err? {
      ghost var x :| x in Ancestors(a) && LoadCommit(store.files, x).Err?;
      assert InTheWay(store.files, a, b, x);
      return Err(ancestors.error);
    }
    var ancestorsOfA := ancestors.value;

    var seen: set<Hash> := {};
    var queue := [b];
    ghost var depth: seq<nat> := [0];
    ghost var d: nat := 0;
    ghost var all := Ancestors(b);
    AncestorsParentClosed(b);
    BfsStarts(b);
    while queue != []
      invariant Levelled(b, queue, depth, d)
      invariant Explored(b, seen, queue, depth, d)
      invariant Walking(all, b, seen, queue)
      invariant seen !! ancestorsOfA && forall c | c in seen :: LoadCommit(store.files, c).Ok?
      decreases all - seen, |queue|
    {
      if depth[0] != d {
        NextLevel(b, seen, queue, depth, d);
        d := d + 1;
      }
      var hash := queue[0];
      if hash in seen {
        Dropped(all, b, seen, queue, depth, d);
        queue, depth := queue[1..], depth[1..];
        continue;
      }
      if hash in ancestorsOfA {
        Nearest(a, b, hash, seen, d);
        NothingSkipped(store.files, a, b, hash, seen, d);
        return Ok(Some(hash));
      }
      Expanded(all, b, seen, queue, depth, d);
      ghost var before := seen;
      seen := seen + {hash};
      var loaded := LoadCommit(store.files, hash);
      if loaded.Err? {
        MetOnTheWay(store.files, a, b, hash, before, d);
        return Err(loaded.error);
      }
      queue, depth := queue[1..] + loaded.value.fields.parentHashes,
                      depth[1..] + Labels(|loaded.value.fields.parentHashes|, d + 1);
    }
    WalkEnds(b, seen);
    AllWasRead(store.files, a, b, seen);
    return Ok(None);
  }

  lemma NothingSkipped(files: Files, a: Hash, b: Hash, hash: Hash, seen: set<Hash>, d: nat)
    requires Loadable(files, a) && hash in Ancestors(a) && hash in Ancestors(b) && Hops(b, hash, d)
    requires forall x, n: nat | Hops(b, x, n) && n < d :: x in seen
    requires forall c | c in seen :: LoadCommit(files, c).Ok?
    ensures forall x :: !MustBeRead(files, a, b, x)
  {
    assert Common(hash, a, b);
    forall n: nat | AllFurther(a, b, n) ensures n < d {}
  }

  lemma AllWasRead(files: Files, a: Hash, b: Hash, seen: set<Hash>)
    requires Loadable(files, a) && seen == Ancestors(b) && forall c | c in seen :: LoadCommit(files, c).Ok?
    ensures forall x :: !MustBeRead(files, a, b, x)
  {
    forall x, n: nat | Hops(b, x, n) ensures x in seen { HopsIsAncestor(b, x, n); }
  }

  /** Popping a commit that was already seen keeps the walk's invariants. */
  lemma Dropped(all: set<Hash>, b: Hash, seen: set<Hash>, queue: seq<Hash>, depth: seq<nat>, d: nat)
    requires queue != [] && queue[0] in seen
    requires Levelled(b, queue, depth, d) && Explored(b, seen, queue, depth, d) && Walking(all, b, seen, queue)
    ensures Levelled(b, queue[1..], depth[1..], d) && Explored(b, seen, queue[1..], depth[1..], d)
    ensures Walking(all, b, seen, queue[1..])
  {}

  /** Marking the head as seen and queueing its parents one level on keeps the walk's invariants. */
  lemma Expanded(all: set<Hash>, b: Hash, seen: set<Hash>, queue: seq<Hash>, depth: seq<nat>, d: nat)
    requires queue != [] && queue[0] !in seen && |depth| == |queue| && depth[0] == d
    requires Levelled(b, queue, depth, d) && Explored(b, seen, queue, depth, d) && Walking(all, b, seen, queue)
    ensures var parents := Parents(queue[0]);
            var q, ds, s := queue[1..] + parents, depth[1..] + Labels(|parents|, d + 1), seen + {queue[0]};
            Levelled(b, q, ds, d) && Explored(b, s, q, ds, d) && Walking(all, b, s, q)
    ensures queue[0] in all
  {
    WalkExpands(all, b, seen, queue);
    var parents := Parents(queue[0]);
    var q, ds, s := queue[1..] + parents, depth[1..] + Labels(|parents|, d + 1), seen + {queue[0]};
    forall i | 0 <= i < |q| ensures Hops(b, q[i], ds[i]) && d <= ds[i] <= d + 1 {
      if i < |queue| - 1 {
        assert q[i] == queue[i + 1] && ds[i] == depth[i + 1];
      } else {
        HopsExtend(b, queue[0], d, q[i]);
      }
    }
    forall i, j | 0 <= i < j < |q| ensures ds[i] <= ds[j] {
      if j < |queue| - 1 { assert ds[j] == depth[j + 1] && ds[i] == depth[i + 1]; }
    }
    forall x | Hops(b, x, d) && x !in s
      ensures exists i | 0 <= i < |q| :: q[i] == x && ds[i] == d
    {
      var i :| 0 <= i < |queue| && queue[i] == x && depth[i] == d;
      assert q[i - 1] == x && ds[i - 1] == d;
    }
  }

  lemma Nearest(a: Hash, b: Hash, hash: Hash, seen: set<Hash>, d: nat)
    requires hash in Ancestors(a) && hash in Ancestors(b) && Hops(b, hash, d) && seen !! Ancestors(a)
    requires forall x, n: nat | Hops(b, x, n) && n < d :: x in seen
    ensures NearestFrom(a, b, Some(hash))
  {}

  /** On histories with at most one parent per commit every common ancestor lies below the one
      found: it is the unique lowest common ancestor. */
  lemma {:induction false} LinearNearestIsLowest(a: Hash, b: Hash, x: Hash, y: Hash)
    requires Linear(b) && NearestFrom(a, b, Some(x)) && Common(y, a, b)
    ensures y in Ancestors(x)
  {
    var n: nat :| Hops(b, x, n) && forall z, m: nat | Common(z, a, b) && Hops(b, z, m) :: n <= m;
    var m := AncestorHasHops(b, y);
    LinearHops(b, x, n, y, m);
  }

  lemma {:induction false} LinearHops(b: Hash, x: Hash, n: nat, y: Hash, m: nat)
    requires Linear(b) && Hops(b, x, n) && Hops(b, y, m) && n <= m
    ensures y in Ancestors(x)
    decreases n
  {
    if n == 0 {
      HopsIsAncestor(b, y, m);
    } else {
      var p := OnlyParent(b, x, n);
      var q := OnlyParent(b, y, m);
      LinearParent(b, p);
      LinearHops(p, x, n - 1, y, m - 1);
    }
  }

  lemma OnlyParent(b: Hash, x: Hash, n: nat) returns (p: Hash)
    requires Linear(b) && Hops(b, x, n) && n > 0
    ensures Parents(b) == [p] && Hops(p, x, n - 1)
  {
    OneParent(b);
    p :| p in Parents(b) && Hops(p, x, n - 1);
    OneElement(Parents(b), p);
  }

  lemma OneElement<T>(s: seq<T>, x: T)
    requires |s| <= 1 && x in s
    ensures s == [x]
  {}

  /** ... so on such histories the answer does not depend on which side is walked. */
  lemma LinearSymmetric(a: Hash, b: Hash, fromB: Option<Hash>, fromA: Option<Hash>)
    requires Linear(a) && Linear(b)
    requires NearestFrom(a, b, fromB) && NearestFrom(b, a, fromA)
    ensures fromA == fromB
  {
    if fromA.Some? && fromB.Some? {
      LinearNearestIsLowest(a, b, fromB.value, fromA.value);
      LinearNearestIsLowest(b, a, fromA.value, fromB.value);
      AncestorAntisymmetric(fromA.value, fromB.value);
    }
  }

  /** Descending from a common ancestor `x` at `n` hops to a nearest one. */
  lemma {:induction false} NearestExists(a: Hash, b: Hash, x: Hash, n: nat) returns (z: Hash, d: nat)
    requires Common(x, a, b) && Hops(b, x, n)
    ensures d <= n && Hops(b, z, d) && NearestFrom(a, b, Some(z))
    ensures d < n || z == x
    decreases n
  {
    if y: Hash, m: nat :| Common(y, a, b) && Hops(b, y, m) && m < n {
      z, d := NearestExists(a, b, y, m);
    } else {
      z, d := x, n;
    }
  }

  /** Whatever is searched from `b`, the answer is a lowest common ancestor. */
  ghost predicate AlwaysLowestFrom(b: Hash) {
    forall a, x, y | NearestFrom(a, b, Some(x)) && Common(y, a, b) && x in Ancestors(y) :: x == y
  }

  ghost predicate Nearer(b: Hash, y: Hash, n: nat) {
    exists m: nat :: m < n && Hops(b, y, m)
  }

  /** In the history of `b` an ancestor is never as near to `b` as its descendants. */
  ghost predicate HopsGrow(b: Hash) {
    forall x, y, n: nat | y in Ancestors(b) && x in Ancestors(y) && x != y && Hops(b, x, n) :: Nearer(b, y, n)
  }

  /** The exact condition, on one history alone: the search from `b` answers with a lowest common
      ancestor, whatever it is compared with, if and only if hop distance from `b` strictly grows
      along ancestry. */
  lemma LowestIffHopsGrow(b: Hash)
    ensures AlwaysLowestFrom(b) <==> HopsGrow(b)
  {
    if HopsGrow(b) {
      forall a, x, y | NearestFrom(a, b, Some(x)) && Common(y, a, b) && x in Ancestors(y) ensures x == y {
        GrowingIsLowest(a, b, x, y);
      }
    }
    if AlwaysLowestFrom(b) {
      forall x, y, n: nat | y in Ancestors(b) && x in Ancestors(y) && x != y && Hops(b, x, n) ensures Nearer(b, y, n) {
        LowestIsGrowing(b, x, y, n);
      }
    }
  }

  lemma GrowingIsLowest(a: Hash, b: Hash, x: Hash, y: Hash)
    requires HopsGrow(b) && NearestFrom(a, b, Some(x)) && Common(y, a, b) && x in Ancestors(y)
    ensures x == y
  {
    var n: nat :| Hops(b, x, n) && forall z, m: nat | Common(z, a, b) && Hops(b, z, m) :: n <= m;
    assert !Nearer(b, y, n);
  }

  lemma LowestIsGrowing(b: Hash, x: Hash, y: Hash, n: nat)
    requires AlwaysLowestFrom(b) && y in Ancestors(b) && x in Ancestors(y) && x != y && Hops(b, x, n)
    ensures Nearer(b, y, n)
  {
    AncestorTransitive(x, y, b);
    assert y in Ancestors(y) && Common(x, y, b) && Common(y, y, b);
    var z, d := NearestExists(y, b, x, n);
    assert Common(z, y, b) && z in Ancestors(y);
    assert z == y;
  }

  function Node(parents: seq<Hash>, message: string): Hash {
    var fields := CommitFields(HashOf(TreeObject(Tree(map[]))), parents, 0, 0, message);
    HashOf(CommitObject(Commit(fields, Signed(0, fields))))
  }

  /** `b` merges `root` itself and a child of `a`, where `a` is a child of `root`: the root is nearer
      to `b`, yet `a` is a common ancestor above it. */
  lemma NearerButLower(root: Hash, a: Hash, side: Hash, b: Hash)
    requires Parents(root) == [] && Parents(a) == [root] && Parents(side) == [a] && Parents(b) == [root, side]
    ensures NearestFrom(a, b, Some(root)) && Common(a, a, b) && root != a && root in Ancestors(a)
  {
    ParentIsAncestor(root, a);
    ParentIsAncestor(root, b);
    ParentIsAncestor(side, b);
    ParentIsAncestor(a, side);
    AncestorTransitive(a, side, b);
    assert a in Ancestors(a) && Common(a, a, b) && Common(root, a, b);
    assert Hops(root, root, 0) && Hops(b, root, 1);
    if b in Ancestors(a) {
      AncestorAntisymmetric(a, b);
    }
    forall y, m: nat | Common(y, a, b) && Hops(b, y, m) ensures 1 <= m {}
  }

  /** With merge commits the answer may be an ancestor of a better one. */
  lemma NearestNeedNotBeLowest()
    ensures exists a, b, x, y ::
      NearestFrom(a, b, Some(x)) && Common(y, a, b) && x != y && x in Ancestors(y)
  {
    var root := Node([], "root");
    var a := Node([root], "a");
    var side := Node([a], "side");
    NearerButLower(root, a, side, Node([root, side], "b"));
  }
}
