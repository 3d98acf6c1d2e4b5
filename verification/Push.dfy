// Push: collect what the remote may lack, upload it object by object, then move the ref.
module Push {
  import opened Wrappers
  import opened Objects
  import opened History
  import opened Server

  datatype PushError =
    | BadObject(error: ObjectError)
    | Deserialize
    | LocalObjectMissing(hash: Hash)
    | Rejected(why: ApiError)
    | LostRace(current: Option<Hash>)
    | UnknownTarget

  function SniffKind(bytes: Bytes): (kind: string)
    ensures kind in {"commit", "tree", "blob"}
    ensures CommitFromBytes(bytes).Some? <==> kind == "commit"
    ensures TreeFromBytes(bytes).Some? <==> kind == "tree"
  {
    if CommitFromBytes(bytes).Some? then "commit"
    else if TreeFromBytes(bytes).Some? then "tree"
    else "blob"
  }

  ghost function Beyond(stop: Option<Hash>): set<Hash> {
    if stop.Some? then Reach(stop.value) else {}
  }

  ghost predicate Distinct(hashes: seq<Hash>) {
    forall i, j | 0 <= i < j < |hashes| :: hashes[i] != hashes[j]
  }

  /** A history a push can rely on: completely stored, each hash used for the kind of object it is. */
  ghost predicate Sound(files: Files, tip: Hash) {
    Complete(files, tip) && WellTyped(tip)
  }

  /** The commits that can be reached from `h` over stored commits without passing `stop`. */
  ghost function Ahead(files: Files, h: Hash, stop: Option<Hash>): set<Hash>
    decreases h
  {
    if stop == Some(h) || h !in files then {}
    else {h} + set p, x | p in Parents(h) && x in Ahead(files, p, stop) :: x
  }

  /** A tree and its blobs, as far as stored; a tree that is not stored leads to no blob. */
  function StoredTree(files: Files, t: Hash): set<Hash> {
    if t in files then {t} + set b | b in TreeEntries(t).Values && b in files else {}
  }

  function StoredOwn(files: Files, c: Hash): set<Hash> {
    {c} + match CommitFromBytes(c.bytes)
    case None => {}
    case Some(commit) => StoredTree(files, commit.fields.treeHash)
  }

  /** The commits ahead of the stop with their stored trees and blobs. */
  ghost function AheadReach(files: Files, tip: Hash, stop: Option<Hash>): set<Hash> {
    set c, x | c in Ahead(files, tip, stop) && x in StoredOwn(files, c) :: x
  }

  lemma {:induction false} AheadParents(files: Files, tip: Hash, stop: Option<Hash>, c: Hash, p: Hash)
    requires c in Ahead(files, tip, stop) && p in Parents(c) && stop != Some(p) && p in files
    ensures p in Ahead(files, tip, stop)
    decreases tip
  {
    if c == tip {
      assert p in Ahead(files, p, stop);
    } else {
      var q :| q in Parents(tip) && c in Ahead(files, q, stop);
      AheadParents(files, q, stop, c, p);
    }
  }

  lemma {:induction false} AheadIsAncestor(files: Files, tip: Hash, stop: Option<Hash>, c: Hash)
    requires c in Ahead(files, tip, stop)
    ensures c in Ancestors(tip) && stop != Some(c) && c in files
    decreases tip
  {
    if c != tip {
      var q :| q in Parents(tip) && c in Ahead(files, q, stop);
      AheadIsAncestor(files, q, stop, c);
    }
  }

  /** A set of hashes that holds the tip, and the parents of those of its members that are stored,
      except `stop`, holds all that is ahead. */
  lemma {:induction false} ClosedSetCoversAhead(files: Files, s: set<Hash>, stop: Option<Hash>, h: Hash, x: Hash)
    requires h in s || stop == Some(h)
    requires forall c, p | c in s && c in files && p in Parents(c) :: p in s || stop == Some(p)
    requires x in Ahead(files, h, stop)
    ensures x in s
    decreases h
  {
    if x != h {
      var p :| p in Parents(h) && x in Ahead(files, p, stop);
      ClosedSetCoversAhead(files, s, stop, p, x);
    }
  }

  /** From a complete store, whatever is not ahead of the stop is reached by the stop. */
  lemma AheadOrBeyond(files: Files, tip: Hash, stop: Option<Hash>, h: Hash)
    requires Complete(files, tip) && h in Reach(tip)
    ensures h in AheadReach(files, tip, stop) || h in Beyond(stop)
  {
    var c :| c in Ancestors(tip) && h in Own(c);
    var s := Ahead(files, tip, stop);
    CommitsStored(files, tip);
    forall d, p | d in s && p in Parents(d) ensures p in s || stop == Some(p) {
      AheadIsAncestor(files, tip, stop, d);
      OwnInReach(d, tip);
      if stop != Some(p) { AheadParents(files, tip, stop, d, p); }
    }
    ClosedSetCoversAncestors(s, stop, tip, c);
    if c in s {
      OwnInReach(c, tip);
      OwnIsStored(files, c);
    }
  }

  lemma CommitsStored(files: Files, tip: Hash)
    requires Complete(files, tip)
    ensures forall c | c in Ancestors(tip) :: c in files
    ensures tip in Ancestors(tip)
  {
    forall c | c in Ancestors(tip) ensures c in files {
      assert c in Own(c) && c in Reach(tip);
    }
  }

  lemma OwnIsStored(files: Files, c: Hash)
    requires forall x | x in Own(c) :: x in files
    ensures StoredOwn(files, c) == Own(c)
  {}

  lemma StoredOwnIsOwn(files: Files, c: Hash)
    ensures StoredOwn(files, c) <= Own(c)
  {}

  /** Ahead of the stop, each hash is used for the kind of object it is. */
  ghost predicate TypedAhead(files: Files, tip: Hash, stop: Option<Hash>) {
    forall c | c in Ahead(files, tip, stop) :: TypedCommit(c)
  }

  /** ... and no stored commit or tree is corrupted. */
  ghost predicate IntactAhead(files: Files, tip: Hash, stop: Option<Hash>) {
    forall c, t | c in Ahead(files, tip, stop) && t in StoredOwn(files, c) && BlobFromBytes(t.bytes).None? ::
      Holds(files, t)
  }

  /** What the collected list is: objects that the local store has ahead of the stop, each once, and,
      where hashes are used for what they are, every one of them. */
  ghost predicate CoversPush(files: Files, tip: Hash, stop: Option<Hash>, hashes: seq<Hash>) {
    && (forall h | h in hashes :: h in files && h in AheadReach(files, tip, stop))
    && Distinct(hashes)
    && (TypedAhead(files, tip, stop) ==> forall h | h in AheadReach(files, tip, stop) :: h in hashes)
  }

  lemma SoundAhead(files: Files, tip: Hash, stop: Option<Hash>)
    requires Sound(files, tip)
    ensures TypedAhead(files, tip, stop) && IntactAhead(files, tip, stop)
    ensures AheadReach(files, tip, stop) <= Reach(tip)
  {
    forall c | c in Ahead(files, tip, stop) ensures TypedCommit(c) && StoredOwn(files, c) <= Reach(tip) {
      AheadIsAncestor(files, tip, stop, c);
      OwnInReach(c, tip);
      StoredOwnIsOwn(files, c);
    }
  }

  /** From a sound history the list has everything the tip reaches but what the stop already does. */
  lemma PushCovers(files: Files, tip: Hash, stop: Option<Hash>, hashes: seq<Hash>)
    requires Sound(files, tip) && CoversPush(files, tip, stop, hashes)
    ensures forall h | h in Reach(tip) :: h in hashes || h in Beyond(stop)
    ensures forall h | h in hashes :: h in Reach(tip)
  {
    SoundAhead(files, tip, stop);
    forall h | h in Reach(tip) ensures h in hashes || h in Beyond(stop) { AheadOrBeyond(files, tip, stop, h); }
  }

  /** Every commit of the history is fully held locally, or complete on the server already: what the
      walk relies on when it takes a missing object for one the server has. */
  ghost predicate Backed(objects: Files, files: Files, tip: Hash) {
    forall c | c in Ancestors(tip) :: (forall x | x in Own(c) :: Holds(files, x)) || Complete(objects, c)
  }

  lemma SoundIsBacked(objects: Files, files: Files, tip: Hash)
    requires Complete(files, tip)
    ensures Backed(objects, files, tip)
  {}

  /** Between the tip and one of its ancestors the walk is stopped only by the stop or by a commit the
      store lacks. */
  lemma {:induction false} AheadOrBlocked(files: Files, h: Hash, stop: Option<Hash>, c: Hash) returns (d: Hash)
    requires c in Ancestors(h) && c !in Ahead(files, h, stop)
    ensures d in Ancestors(h) && c in Ancestors(d) && (stop == Some(d) || d !in files)
    decreases h
  {
    if stop == Some(h) || h !in files {
      d := h;
      assert h in Ancestors(h);
    } else {
      var p :| p in Parents(h) && c in Ancestors(p);
      d := AheadOrBlocked(files, p, stop, c);
    }
  }

  /** With the list uploaded, everything the tip reaches is on the server. */
  lemma PushSupplies(objects: Files, files: Files, tip: Hash, stop: Option<Hash>, hashes: seq<Hash>)
    requires WellTyped(tip) && Backed(objects, files, tip) && CoversPush(files, tip, stop, hashes)
    requires stop.Some? ==> Complete(objects, stop.value)
    ensures forall h | h in Reach(tip) :: Holds(objects, h) || h in hashes
  {
    forall h | h in Reach(tip) ensures Holds(objects, h) || h in hashes {
      var c :| c in Ancestors(tip) && h in Own(c);
      CommitSupplied(objects, files, tip, stop, hashes, c);
    }
  }

  lemma CommitSupplied(objects: Files, files: Files, tip: Hash, stop: Option<Hash>, hashes: seq<Hash>, c: Hash)
    requires WellTyped(tip) && Backed(objects, files, tip) && CoversPush(files, tip, stop, hashes)
    requires stop.Some? ==> Complete(objects, stop.value)
    requires c in Ancestors(tip)
    ensures forall h | h in Own(c) :: Holds(objects, h) || h in hashes
  {
    if c in Ahead(files, tip, stop) && forall x | x in Own(c) :: Holds(files, x) {
      OwnIsStored(files, c);
      forall d | d in Ahead(files, tip, stop) ensures TypedCommit(d) { AheadIsAncestor(files, tip, stop, d); }
    } else {
      var d := c;
      if c !in Ahead(files, tip, stop) {
        d := AheadOrBlocked(files, tip, stop, c);
      }
      assert c in Ancestors(c) && d in Own(d);
      assert Complete(objects, d);
      ReachMonotone(c, d);
      OwnInReach(c, c);
    }
  }

  /** The listed hashes are stored, distinct and seen. */
  ghost predicate Listed(files: Files, seen: set<Hash>, hashes: seq<Hash>) {
    Distinct(hashes) && forall h | h in hashes :: h in seen && h in files
  }

  /** Nothing stored that was seen is left off the list, what was read of it was not corrupted, and a
      seen tree brought its blobs. */
  ghost predicate Thorough(files: Files, seen: set<Hash>, hashes: seq<Hash>) {
    && (forall h | h in seen && h in files :: h in hashes)
    && (forall h | h in seen && h in files && BlobFromBytes(h.bytes).None? :: Holds(files, h))
    && (forall t, b | t in seen && b in StoredTree(files, t) :: b in seen)
  }

  lemma ListMore(files: Files, seen: set<Hash>, hashes: seq<Hash>, h: Hash)
    requires Listed(files, seen, hashes) && h in files && h !in seen
    ensures Listed(files, seen + {h}, hashes + [h])
  {}

  /** Add the blobs of one tree that are stored and new. */
  method CollectBlobs(store: LocalObjectStore, blobs: set<Hash>, seen0: set<Hash>, hashes0: seq<Hash>)
    returns (seen: set<Hash>, hashes: seq<Hash>)
    requires Listed(store.files, seen0, hashes0)
    ensures Listed(store.files, seen, hashes)
    ensures seen == seen0 + set b | b in blobs && b in store.files
    ensures forall h | h in hashes0 :: h in hashes
    ensures forall h | h in seen :: h in seen0 || h in hashes
  {
    seen, hashes := seen0, hashes0;
    var todo := blobs;
    while todo != {}
      invariant todo <= blobs
      invariant Listed(store.files, seen, hashes)
      invariant seen == seen0 + set b | b in blobs - todo && b in store.files
      invariant forall h | h in hashes0 :: h in hashes
      invariant forall h | h in seen :: h in seen0 || h in hashes
      decreases todo
    {
      var blobHash :| blobHash in todo;
      if store.Contains(blobHash) && blobHash !in seen {
        ListMore(store.files, seen, hashes, blobHash);
        seen, hashes := seen + {blobHash}, hashes + [blobHash];
      }
      todo := todo - {blobHash};
    }
  }

  /** A commit's tree and every blob it references, as far as stored and new. */
  method CollectTree(store: LocalObjectStore, treeHash: Hash, seen0: set<Hash>, hashes0: seq<Hash>)
    returns (seen: set<Hash>, hashes: seq<Hash>, r: Result<(), PushError>)
    requires Listed(store.files, seen0, hashes0)
    ensures Listed(store.files, seen, hashes)
    ensures r.Ok? <==> treeHash !in store.files || treeHash in seen0
                       || (Holds(store.files, treeHash) && TreeFromBytes(treeHash.bytes).Some?)
    ensures r.Ok? ==> seen == if treeHash in seen0 then seen0 else seen0 + StoredTree(store.files, treeHash)
    ensures seen0 <= seen
    ensures forall h | h in hashes0 :: h in hashes
    ensures forall h | h in seen :: h in seen0 || h in hashes
  {
    seen, hashes, r := seen0, hashes0, Ok(());
    if !store.Contains(treeHash) || treeHash in seen {
      return;
    }
    ListMore(store.files, seen, hashes, treeHash);
    seen, hashes := seen + {treeHash}, hashes + [treeHash];
    var bytes := store.Get(treeHash);
    if bytes.Err? {
      return seen, hashes, Err(BadObject(bytes.error));
    }
    assert bytes.value.Some?;
    var tree := TreeFromBytes(bytes.value.value);
    if tree.None? {
      return seen, hashes, Err(Deserialize);
    }
    seen, hashes := CollectBlobs(store, tree.value.entries.Values, seen, hashes);
  }

  lemma OwnInReach(c: Hash, tip: Hash)
    requires c in Ancestors(tip)
    ensures Own(c) <= Reach(tip)
    ensures forall p | p in Parents(c) :: p in Ancestors(tip)
  {
    forall p | p in Parents(c) ensures p in Ancestors(tip) {
      ParentIsAncestor(p, c);
      AncestorTransitive(p, c, tip);
    }
  }

  /** What may be waiting: commits ahead, the stop, or commits the store lacks. */
  ghost predicate MayWait(files: Files, tip: Hash, stop: Option<Hash>, c: Hash) {
    c in Ancestors(tip) && (c in Ahead(files, tip, stop) || stop == Some(c) || c !in files)
  }

  lemma OwnAhead(files: Files, tip: Hash, stop: Option<Hash>, c: Hash)
    requires c in Ahead(files, tip, stop)
    ensures StoredOwn(files, c) <= AheadReach(files, tip, stop) && StoredOwn(files, c) <= Reach(tip)
    ensures forall p | p in Parents(c) :: MayWait(files, tip, stop, p)
  {
    AheadIsAncestor(files, tip, stop, c);
    OwnInReach(c, tip);
    StoredOwnIsOwn(files, c);
    forall p | p in Parents(c) && stop != Some(p) && p in files ensures p in Ahead(files, tip, stop) {
      AheadParents(files, tip, stop, c, p);
    }
  }

  /** What makes the list cover all that is ahead: of every stored commit seen, all that it owns is
      seen and its parents are seen, awaited or the stop. */
  ghost predicate Covering(
    files: Files, tip: Hash, stop: Option<Hash>, worklist: seq<Hash>, seen: set<Hash>, hashes: seq<Hash>)
  {
    && Thorough(files, seen, hashes)
    && (tip in seen || tip in worklist || stop == Some(tip))
    && (forall c, p | c in seen && c in files && p in Parents(c) :: p in seen || p in worklist || stop == Some(p))
    && (forall c, h | c in seen && c in files && h in StoredOwn(files, c) :: h in seen)
  }

  lemma CoveringEnds(files: Files, tip: Hash, stop: Option<Hash>, seen: set<Hash>, hashes: seq<Hash>)
    requires Covering(files, tip, stop, [], seen, hashes)
    ensures forall h | h in AheadReach(files, tip, stop) :: h in seen && h in hashes
    ensures IntactAhead(files, tip, stop)
  {
    forall c, h | c in Ahead(files, tip, stop) && h in StoredOwn(files, c) ensures h in seen && h in files {
      ClosedSetCoversAhead(files, seen, stop, tip, c);
      AheadIsAncestor(files, tip, stop, c);
    }
  }

  /** Kinds keep roles apart. */
  lemma Roles(files: Files, c: Hash)
    requires TypedCommit(c)
    ensures StoredTree(files, c) <= {c}
    ensures var t := CommitFromBytes(c.bytes).value.fields.treeHash;
            && Parents(t) == [] && StoredOwn(files, t) == {t} && BlobFromBytes(t.bytes).None?
            && forall b | b in StoredTree(files, t) && b != t ::
                 StoredTree(files, b) <= {b} && Parents(b) == [] && StoredOwn(files, b) == {b}
                   && BlobFromBytes(b.bytes).Some?
  {}

  /** Visiting one stored commit keeps the list thorough ... */
  lemma ThoroughMore(
    files: Files, c: Hash, seen0: set<Hash>, hashes0: seq<Hash>, seen: set<Hash>, hashes: seq<Hash>)
    requires TypedCommit(c) && Holds(files, c) && Thorough(files, seen0, hashes0)
    requires var t := CommitFromBytes(c.bytes).value.fields.treeHash;
             && seen == (if t in seen0 then seen0 + {c} else seen0 + {c} + StoredTree(files, t))
             && (t in files && t !in seen0 ==> Holds(files, t))
    requires forall h | h in seen && h in files :: h in hashes
    ensures Thorough(files, seen, hashes) && StoredOwn(files, c) <= seen
  {}

  /** ... and covering. */
  lemma CoversMore(
    files: Files, tip: Hash, stop: Option<Hash>, current: Hash, rest: seq<Hash>,
    seen0: set<Hash>, hashes0: seq<Hash>, seen: set<Hash>, hashes: seq<Hash>)
    requires TypedCommit(current) && current in files
    requires Covering(files, tip, stop, rest + [current], seen0, hashes0) && Thorough(files, seen, hashes)
    requires seen0 + {current} <= seen <= seen0 + StoredOwn(files, current) && StoredOwn(files, current) <= seen
    ensures Covering(files, tip, stop, rest + Parents(current), seen, hashes)
  {
    Roles(files, current);
    forall c, p | c in seen && c in files && p in Parents(c)
      ensures p in seen || p in rest + Parents(current) || stop == Some(p)
    {
      if c in seen0 {
        assert p in seen0 || p in rest + [current] || stop == Some(p);
      } else {
        assert c == current;
      }
    }
  }

  /** The state of the collecting walk between two commits. */
  ghost predicate Collecting(
    files: Files, tip: Hash, stop: Option<Hash>, worklist: seq<Hash>, seen: set<Hash>, hashes: seq<Hash>)
  {
    && (forall c | c in worklist :: MayWait(files, tip, stop, c))
    && seen <= Reach(tip) && (forall h | h in seen && h in files :: h in AheadReach(files, tip, stop))
    && Listed(files, seen, hashes)
    && (TypedAhead(files, tip, stop) ==> Covering(files, tip, stop, worklist, seen, hashes))
  }

  lemma CollectingStarts(files: Files, tip: Hash, stop: Option<Hash>)
    ensures Collecting(files, tip, stop, [tip], {}, [])
  {}

  /** A commit already seen, or the stop itself, needs no visit. */
  lemma CollectingSkips(
    files: Files, tip: Hash, stop: Option<Hash>, rest: seq<Hash>, current: Hash, seen: set<Hash>, hashes: seq<Hash>)
    requires Collecting(files, tip, stop, rest + [current], seen, hashes)
    requires stop == Some(current) || current in seen
    ensures Collecting(files, tip, stop, rest, seen, hashes)
  {}

  /** A commit the local store lacks is passed over. */
  lemma CollectingMisses(
    files: Files, tip: Hash, stop: Option<Hash>, rest: seq<Hash>, current: Hash, seen: set<Hash>, hashes: seq<Hash>)
    requires Collecting(files, tip, stop, rest + [current], seen, hashes) && current !in files
    ensures Collecting(files, tip, stop, rest, seen + {current}, hashes)
  {
    assert current in rest + [current] && forall c | c in rest :: c in rest + [current];
    assert current in Own(current) && current in Reach(tip);
    if TypedAhead(files, tip, stop) {
      forall c, p | c in seen && c in files && p in Parents(c) ensures p in seen + {current} || p in rest
        || stop == Some(p) {
        assert p in seen || p in rest + [current] || stop == Some(p);
      }
    }
  }

  lemma CollectingGoesOn(
    files: Files, tip: Hash, stop: Option<Hash>, current: Hash, rest: seq<Hash>,
    seen0: set<Hash>, hashes0: seq<Hash>, seen: set<Hash>, hashes: seq<Hash>)
    requires Collecting(files, tip, stop, rest + [current], seen0, hashes0) && Listed(files, seen, hashes)
    requires current in Ahead(files, tip, stop) && Holds(files, current) && CommitFromBytes(current.bytes).Some?
    requires var t := CommitFromBytes(current.bytes).value.fields.treeHash;
             && seen == (if t in seen0 + {current} then seen0 + {current} else seen0 + {current} + StoredTree(files, t))
             && (t in files && t !in seen0 + {current} ==> Holds(files, t))
    requires forall h | h in seen :: h in seen0 || h in hashes
    requires forall h | h in hashes0 :: h in hashes
    ensures Collecting(files, tip, stop, rest + Parents(current), seen, hashes)
  {
    assert forall c | c in rest :: c in rest + [current];
    OwnAhead(files, tip, stop, current);
    if TypedAhead(files, tip, stop) {
      assert CommitFromBytes(current.bytes).value.fields.treeHash != current by { Roles(files, current); }
      ThoroughMore(files, current, seen0, hashes0, seen, hashes);
      CoversMore(files, tip, stop, current, rest, seen0, hashes0, seen, hashes);
    }
  }

  lemma IntactCommit(files: Files, tip: Hash, stop: Option<Hash>, c: Hash)
    requires TypedAhead(files, tip, stop) && IntactAhead(files, tip, stop) && c in Ahead(files, tip, stop)
    ensures Holds(files, c) && CommitFromBytes(c.bytes).Some?
    ensures var t := CommitFromBytes(c.bytes).value.fields.treeHash;
            TreeFromBytes(t.bytes).Some? && (t in files ==> Holds(files, t))
  {}

  /** One commit of the walk: list it, its tree and its blobs; the result is what to walk next. */
  method CollectCommit(
    store: LocalObjectStore, ghost tip: Hash, ghost stop: Option<Hash>, ghost rest: seq<Hash>,
    current: Hash, seen0: set<Hash>, hashes0: seq<Hash>)
    returns (seen: set<Hash>, hashes: seq<Hash>, r: Result<seq<Hash>, PushError>)
    requires current !in seen0 && stop != Some(current)
    requires Collecting(store.files, tip, stop, rest + [current], seen0, hashes0)
    ensures r.Ok? ==> Collecting(store.files, tip, stop, rest + r.value, seen, hashes)
    ensures seen0 + {current} <= seen
    ensures TypedAhead(store.files, tip, stop) && IntactAhead(store.files, tip, stop) ==> r.Ok?
  {
    seen, hashes, r := seen0 + {current}, hashes0, Ok([]);
    assert current in rest + [current];
    if TypedAhead(store.files, tip, stop) && IntactAhead(store.files, tip, stop) && current in store.files {
      IntactCommit(store.files, tip, stop, current);
    }
    var bytes := store.Get(current);
    if bytes.Ok? && bytes.value.None? {
      CollectingMisses(store.files, tip, stop, rest, current, seen0, hashes0);
      assert rest + [] == rest;
      return;
    }
    if bytes.Err? {
      return seen, hashes, Err(BadObject(bytes.error));
    }
    ListMore(store.files, seen0, hashes, current);
    hashes := hashes + [current];
    var parsed := CommitFromBytes(bytes.value.value);
    if parsed.None? {
      return seen, hashes, Err(Deserialize);
    }
    var collected;
    seen, hashes, collected := CollectTree(store, parsed.value.fields.treeHash, seen, hashes);
    if collected.Err? {
      return seen, hashes, Err(collected.error);
    }
    CollectingGoesOn(store.files, tip, stop, current, rest, seen0, hashes0, seen, hashes);
    r := Ok(parsed.value.fields.parentHashes);
  }

  /** Every hash reachable from `tip` that the local store can supply, stopping at `stop`. */
  method CollectObjectsToPush(store: LocalObjectStore, tip: Hash, stop: Option<Hash>)
    returns (r: Result<seq<Hash>, PushError>)
    ensures r.Ok? ==> CoversPush(store.files, tip, stop, r.value)
    ensures TypedAhead(store.files, tip, stop) ==> (r.Ok? <==> IntactAhead(store.files, tip, stop))
  {
    var hashes: seq<Hash> := [];
    var seen: set<Hash> := {};
    var worklist := [tip];
    CollectingStarts(store.files, tip, stop);
    while worklist != []
      invariant Collecting(store.files, tip, stop, worklist, seen, hashes)
      decreases Reach(tip) - seen, |worklist|
    {
      var current := worklist[|worklist| - 1];
      var rest := worklist[..|worklist| - 1];
      assert worklist == rest + [current];
      if stop == Some(current) || current in seen {
        CollectingSkips(store.files, tip, stop, rest, current, seen, hashes);
        worklist := rest;
        continue;
      }
      assert current in worklist && MayWait(store.files, tip, stop, current);
      assert current in Own(current) && current in Reach(tip) - seen;
      var next;
      seen, hashes, next := CollectCommit(store, tip, stop, rest, current, seen, hashes);
      if next.Err? {
        return Err(next.error);
      }
      worklist := rest + next.value;
    }
    CollectingEnds(store.files, tip, stop, seen, hashes);
    return Ok(hashes);
  }

  lemma CollectingEnds(files: Files, tip: Hash, stop: Option<Hash>, seen: set<Hash>, hashes: seq<Hash>)
    requires Collecting(files, tip, stop, [], seen, hashes)
    ensures CoversPush(files, tip, stop, hashes)
    ensures TypedAhead(files, tip, stop) ==> IntactAhead(files, tip, stop)
  {
    if TypedAhead(files, tip, stop) {
      CoveringEnds(files, tip, stop, seen, hashes);
    }
  }

  /** Upload the given objects in order, then compare-and-swap the ref. */
  method PushObjects(
    store: LocalObjectStore, server: Server, branch: string, hashes: seq<Hash>, oldHash: Option<Hash>, newHash: Hash)
    returns (r: Result<(), PushError>)
    modifies server`objects, server`refs
    ensures Extends(old(server.objects), server.objects)
    ensures forall h | h in server.objects && h !in old(server.objects) :: h in hashes && server.objects[h] == h.bytes
    ensures r.Err? ==> server.refs == old(server.refs)
    ensures r.Ok? <==>
              && (forall h | h in hashes :: Holds(store.files, h))
              && (newHash in hashes || newHash in old(server.objects)) && RefOf(old(server.refs), branch) == oldHash
    ensures r.Ok? ==>
              && (forall h | h in hashes :: h in server.objects)
              && MoveReplyTo(server.objects, old(server.refs), branch, oldHash, newHash) == Moved
              && server.refs == old(server.refs)[branch := newHash]
    ensures (forall h | h in hashes :: Holds(store.files, h))
              && (newHash in hashes || newHash in old(server.objects)) ==>
              var current := RefOf(old(server.refs), branch);
              r == if current == oldHash then Ok(()) else Err(LostRace(current))
  {
    for i := 0 to |hashes|
      invariant server.refs == old(server.refs)
      invariant Extends(old(server.objects), server.objects)
      invariant forall h | h in server.objects && h !in old(server.objects) ::
                  h in hashes && server.objects[h] == h.bytes
      invariant forall j | 0 <= j < i :: hashes[j] in server.objects && Holds(store.files, hashes[j])
    {
      var bytes := store.Get(hashes[i]);
      if bytes.Err? {
        return Err(BadObject(bytes.error));
      }
      if bytes.value.None? {
        return Err(LocalObjectMissing(hashes[i]));
      }
      var sent := server.UploadObject(Upload(hashes[i], SniffKind(bytes.value.value), bytes.value.value));
      assert sent.Ok?;
    }
    var reply := server.MoveRef(branch, oldHash, newHash);
    match reply {
      case Moved => return Ok(());
      case Conflict(current) => return Err(LostRace(current));
      case UnknownObject => return Err(UnknownTarget);
    }
  }
}
