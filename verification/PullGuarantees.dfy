// What an `Ok` pull means, against any server: which answer it gives, what it leaves in the
// store, when the store may be trusted to be complete, and two ways that trust can be broken.
module PullGuarantees {
  import opened Wrappers
  import opened Objects
  import opened History
  import opened Pull

  ghost predicate TreeHeld(files: Files, t: Hash) {
    Holds(files, t) && TreeFromBytes(t.bytes).Some? && forall b | b in TreeEntries(t).Values :: Holds(files, b)
  }

  /** The store has `h` and, when `h` is a commit, its tree, its blobs and all of its mainline. */
  ghost predicate MainlineHeld(files: Files, h: Hash)
    decreases h
  {
    && Holds(files, h)
    && (CommitFromBytes(h.bytes).Some? ==>
          && TreeHeld(files, CommitFromBytes(h.bytes).value.fields.treeHash)
          && (FirstParent(h).Some? ==> MainlineHeld(files, FirstParent(h).value)))
  }

  /** "What we have is transitively complete": the assumption behind stopping early. */
  ghost predicate ClosedStore(files: Files) {
    forall h | h in files :: MainlineHeld(files, h)
  }

  lemma {:induction false} HeldMonotone(before: Files, after: Files, h: Hash)
    requires Extends(before, after) && MainlineHeld(before, h)
    ensures MainlineHeld(after, h)
    decreases h
  {
    if FirstParent(h).Some? {
      HeldMonotone(before, after, FirstParent(h).value);
    }
  }

  lemma {:induction false} HeldBelow(files: Files, h: Hash, x: Hash)
    requires MainlineHeld(files, h) && OnMainline(x, h)
    ensures MainlineHeld(files, x)
    decreases h
  {
    if x != h {
      HeldBelow(files, FirstParent(h).value, x);
    }
  }

  /** Exactly when a finished walk leaves the tip complete: when it ran to the root, or stopped at
      something that is itself complete. */
  lemma {:induction false} HeldIffStopHeld(after: Files, have: set<Hash>, localTip: Option<Hash>, h: Hash)
    requires Intact(after) && Walkable(have, localTip, h) && Gathered(have, localTip, h) <= after.Keys
    ensures MainlineHeld(after, h) <==>
            Stop(have, localTip, h).None? || MainlineHeld(after, Stop(have, localTip, h).value)
    decreases h
  {
    if localTip != Some(h) && h !in have {
      assert h in Own(h);
      if FirstParent(h).Some? {
        HeldIffStopHeld(after, have + Own(h), localTip, FirstParent(h).value);
      }
    }
  }

  /** The local tip lies on the remote mainline exactly when it lies below the stop. */
  lemma {:induction false} StopSplitsMainline(have: set<Hash>, local: Hash, h: Hash)
    ensures OnMainline(local, h) <==>
            Stop(have, Some(local), h).Some? && OnMainline(local, Stop(have, Some(local), h).value)
    decreases h
  {
    if local != h && h !in have && FirstParent(h).Some? {
      StopSplitsMainline(have + Own(h), local, FirstParent(h).value);
    }
  }

  lemma {:induction false} LocalWalkIsExact(files: Files, h: Hash, x: Hash)
    requires MainlineHeld(files, h)
    ensures LocalReaches(files, h, x) <==> OnMainline(x, h)
    decreases h
  {
    if FirstParent(h).Some? {
      LocalWalkIsExact(files, FirstParent(h).value, x);
    }
  }

  /** No tree on the mainline lists a commit's hash as the blob of a key. */
  ghost predicate BlobsAreNotCommits(tip: Hash) {
    forall c, b | c in Mainline(tip) && b in Own(c) && b != c :: CommitFromBytes(b.bytes).None?
  }

  /** ... in particular no commit of the mainline itself. */
  ghost predicate MainlineNotNamed(tip: Hash) {
    forall c, b | c in Mainline(tip) && b in Own(c) && b != c && OnMainline(b, tip) :: CommitFromBytes(b.bytes).None?
  }

  /** The only commits met as "already held" were held before the walk began. */
  lemma {:induction false} StopWasHeld(
    before: Files, have: set<Hash>, localTip: Option<Hash>, tip: Hash, h: Hash)
    requires MainlineNotNamed(tip) && OnMainline(h, tip)
    requires localTip.Some? ==> localTip.value in before
    requires forall x | x in have && OnMainline(x, h) :: x in before || CommitFromBytes(x.bytes).None?
    ensures var s := Stop(have, localTip, h);
            s.Some? ==>
              || s.value in before
              || (CommitFromBytes(s.value.bytes).None? && s.value in have + Gathered(have, localTip, h))
    decreases h
  {
    assert OnMainline(h, h);
    if localTip != Some(h) && h !in have && FirstParent(h).Some? {
      var p := FirstParent(h).value;
      MainlineTransitive(p, h, tip);
      assert h in Mainline(tip);
      forall x | x in have + Own(h) && OnMainline(x, p)
        ensures x in before || CommitFromBytes(x.bytes).None?
      {
        MainlineOrder(x, p);
        MainlineTransitive(x, p, tip);
        assert x != h;
        assert OnMainline(x, h);
      }
      StopWasHeld(before, have + Own(h), localTip, tip, p);
    }
  }

  /** The answer a pull owes its caller. */
  ghost function RightAnswer(localTip: Option<Hash>, tip: Hash): PullOutcome {
    if localTip.None? || OnMainline(localTip.value, tip) then FastForward(tip) else Diverged(localTip.value, tip)
  }

  /** What a pull may rely on: everything stored whose mainline no tree of it names has that mainline
      stored too. */
  ghost predicate MainlinesHeld(files: Files) {
    forall h | h in files && MainlineNotNamed(h) :: MainlineHeld(files, h)
  }

  /** An `Ok` pull that walked, with what it promises of the store. */
  ghost predicate Pulled(before: Files, after: Files, remote: Remote, localTip: Option<Hash>, tip: Hash) {
    && (localTip.Some? ==> localTip.value in before)
    && Adds(before, after, MainlineReach(tip), remote) && Walkable(before.Keys, localTip, tip)
    && after.Keys == before.Keys + Gathered(before.Keys, localTip, tip)
  }

  lemma NotNamedBelow(tip: Hash, h: Hash)
    requires MainlineNotNamed(tip) && OnMainline(h, tip)
    ensures MainlineNotNamed(h)
  {
    forall c, b | c in Mainline(h) && b in Own(c) && b != c && OnMainline(b, h) ensures CommitFromBytes(b.bytes).None? {
      MainlineTransitive(c, h, tip);
      MainlineTransitive(b, h, tip);
    }
  }

  lemma TipIsHeld(before: Files, after: Files, remote: Remote, localTip: Option<Hash>, tip: Hash)
    requires Intact(before) && MainlinesHeld(before) && MainlineNotNamed(tip)
               && Pulled(before, after, remote, localTip, tip)
    ensures MainlineHeld(after, tip)
    ensures var stop := Stop(before.Keys, localTip, tip); stop.Some? ==> MainlineHeld(after, stop.value)
  {
    var stop := Stop(before.Keys, localTip, tip);
    IntactAfter(before, after, MainlineReach(tip), remote);
    StopWasHeld(before, before.Keys, localTip, tip, tip);
    StopIsOnMainline(before.Keys, localTip, tip);
    if stop.Some? && stop.value in before {
      NotNamedBelow(tip, stop.value);
      HeldMonotone(before, after, stop.value);
    }
    HeldIffStopHeld(after, before.Keys, localTip, tip);
  }

  /** Main result. From a store whose mainlines are held, an `Ok` pull leaves everything on the remote
      mainline in the store and answers fast-forward exactly when the local tip is absent or on that
      mainline. If moreover no tree names a commit as a value, the next pull may rely on the store as this
      one did, and a closed store stays closed. */
  lemma PullIsComplete(before: Files, after: Files, remote: Remote, localTip: Option<Hash>, tip: Hash)
    requires Intact(before) && MainlinesHeld(before) && MainlineNotNamed(tip)
               && Pulled(before, after, remote, localTip, tip)
    ensures MainlineHeld(after, tip)
    ensures BlobsAreNotCommits(tip) ==> MainlinesHeld(after) && (ClosedStore(before) ==> ClosedStore(after))
    ensures Classify(after, localTip, tip, Stop(before.Keys, localTip, tip)) == RightAnswer(localTip, tip)
  {
    IntactAfter(before, after, MainlineReach(tip), remote);
    TipIsHeld(before, after, remote, localTip, tip);
    if BlobsAreNotCommits(tip) {
      AddedStaysHeld(before, after, remote, tip);
    }
    HeldStopDecides(after, before.Keys, localTip, tip);
  }

  lemma HeldStopDecides(files: Files, have: set<Hash>, localTip: Option<Hash>, tip: Hash)
    requires var stop := Stop(have, localTip, tip); stop.Some? ==> MainlineHeld(files, stop.value)
    ensures Classify(files, localTip, tip, Stop(have, localTip, tip)) == RightAnswer(localTip, tip)
  {
    var stop := Stop(have, localTip, tip);
    if localTip.Some? {
      StopSplitsMainline(have, localTip.value, tip);
      if stop.Some? {
        LocalWalkIsExact(files, stop.value, localTip.value);
      }
    }
  }

  /** The exact condition, on the store before the pull: every pull of a mainline that no tree of it names
      ends with that mainline complete if and only if the mainlines already stored are. A pull that
      failed halfway is what breaks it. */
  lemma PullsCompleteIff(before: Files)
    requires Intact(before)
    ensures (forall after, remote, localTip, tip |
               MainlineNotNamed(tip) && Pulled(before, after, remote, localTip, tip) ::
               MainlineHeld(after, tip)) <==> MainlinesHeld(before)
  {
    if MainlinesHeld(before) {
      forall after, remote, localTip, tip | MainlineNotNamed(tip) && Pulled(before, after, remote, localTip, tip)
        ensures MainlineHeld(after, tip)
      {
        PullIsComplete(before, after, remote, localTip, tip);
      }
    }
    forall h | h in before ensures Pulled(before, before, Remote(map[], None), None, h) {}
  }

  /** ... and the store a failed pull leaves is such a store: the stored commit lacks its tree. */
  lemma FailedPullLeavesMainlineOpen(files: Files, tip: Hash)
    requires tip in files && CommitFromBytes(tip.bytes).Some? && Parents(tip) == []
    requires CommitFromBytes(tip.bytes).value.fields.treeHash !in files
    ensures MainlineNotNamed(tip) && !MainlinesHeld(files)
  {
    assert Mainline(tip) == [tip];
  }

  /** Every commit from `h` down to, but not including, `x` is stored. */
  ghost predicate Bridged(files: Files, h: Hash, x: Hash) {
    forall c | OnMainline(c, h) && OnMainline(x, c) && c != x :: c in files
  }

  lemma {:induction false} ReachesIffBridged(files: Files, h: Hash, x: Hash)
    requires OnMainline(x, h)
    ensures LocalReaches(files, h, x) <==> Bridged(files, h, x)
    decreases h
  {
    if x == h {
      forall c | OnMainline(c, h) && OnMainline(x, c) ensures c == x {
        MainlineOrder(c, x);
        MainlineOrder(x, c);
      }
    } else {
      var p := FirstParent(h).value;
      ReachesIffBridged(files, p, x);
      assert OnMainline(h, h);
      forall c | c != h ensures OnMainline(c, h) <==> OnMainline(c, p) {}
      if OnMainline(h, p) { MainlineOrder(h, p); }
    }
  }

  /** Whatever the store and the server hold, the answer is right exactly when the local tip is off the
      remote mainline, or the commits between it and the stop are stored. */
  lemma AnswerIsRightIff(files: Files, have: set<Hash>, localTip: Option<Hash>, tip: Hash)
    ensures var stop := Stop(have, localTip, tip);
            Classify(files, localTip, tip, stop) == RightAnswer(localTip, tip) <==>
              localTip.None? || !OnMainline(localTip.value, tip)
                || (stop.Some? && Bridged(files, stop.value, localTip.value))
  {
    FastForwardIsSafe(files, have, localTip, tip);
    if localTip.Some? && OnMainline(localTip.value, tip) {
      StopSplitsMainline(have, localTip.value, tip);
      ReachesIffBridged(files, Stop(have, localTip, tip).value, localTip.value);
    }
  }

  lemma AddedStaysHeld(before: Files, after: Files, remote: Remote, tip: Hash)
    requires MainlinesHeld(before) && BlobsAreNotCommits(tip)
    requires Adds(before, after, MainlineReach(tip), remote) && Intact(after) && MainlineHeld(after, tip)
    ensures MainlinesHeld(after) && (ClosedStore(before) ==> ClosedStore(after))
  {
    forall h | h in after ensures h in before || MainlineHeld(after, h) {
      if h !in before {
        var c :| c in Mainline(tip) && h in Own(c);
        HeldBelow(after, tip, c);
        if h != c {
          assert CommitFromBytes(h.bytes).None?;
        }
      }
    }
    forall h | h in before && MainlineHeld(before, h) ensures MainlineHeld(after, h) {
      HeldMonotone(before, after, h);
    }
  }

  function Root(entries: map<string, Hash>, parents: seq<Hash>): Hash {
    var fields := CommitFields(HashOf(TreeObject(Tree(entries))), parents, 0, 0, "");
    HashOf(CommitObject(Commit(fields, Signed(0, fields))))
  }

  /** Retrying after a failed pull can report success for a tip whose tree was never fetched: the
      first attempt stores the commit before it asks for the tree, and the retry takes a stored
      commit as complete. */
  method RetryAfterFailureTrustsAnOpenStore()
    returns (store: LocalObjectStore, first: Result<PullOutcome, SyncError>, retry: Result<PullOutcome, SyncError>,
      tip: Hash)
    ensures first.Err? && retry == Ok(FastForward(tip)) && !MainlineHeld(store.files, tip)
  {
    tip := Root(map[], []);
    var tree := HashOf(TreeObject(Tree(map[])));
    var lossy := Remote(map[tip := tip.bytes], Some(tip));
    assert tree in Own(tip) && tree in Gathered({}, None, tip);
    store := new LocalObjectStore.Open();
    first := PullBranch(lossy, store, None);
    assert tree != tip && tree !in lossy.objects;
    assert tree !in store.files;
    assert Mainline(tip) == [tip];
    retry := PullBranch(lossy, store, None);
    assert tree !in store.files;
  }

  /** A tree may name a commit as a key's value. Fetched as a "blob", that commit then stops the
      walk although its own tree is still missing. */
  lemma CommitNamedAsBlobStopsTheWalk()
    ensures exists tip, after: Files ::
      && Intact(after) && Walkable({}, None, tip) && after.Keys == Gathered({}, None, tip)
      && Classify(after, None, tip, Stop({}, None, tip)) == FastForward(tip)
      && !MainlineHeld(after, tip)
  {
    var parent := Root(map["A" := Of(Junk(0))], []);
    var tip := Root(map["K" := parent], [parent]);
    var lost := CommitFromBytes(parent.bytes).value.fields.treeHash;
    assert Parents(tip) == [parent] && FirstParent(tip) == Some(parent);
    var t := CommitFromBytes(tip.bytes).value.fields.treeHash;
    assert TreeEntries(t) == map["K" := parent];
    assert TreeEntries(t)["K"] in TreeEntries(t).Values;
    assert parent in Own(tip);
    assert Gathered({}, None, tip) == Own(tip) + Gathered({} + Own(tip), None, parent);
    assert Gathered({} + Own(tip), None, parent) == {};
    var after: Files := map h | h in Own(tip) :: h.bytes;
    assert lost !in Own(tip);
    assert !MainlineHeld(after, parent);
    assert after.Keys == Gathered({}, None, tip);
    assert Walkable({} + Own(tip), None, parent);
  }

  /** A pull that keeps every promise of `PullBranch`, from a closed store that holds the local tip and
      from an honest server, and answers diverged although the local tip is on the remote mainline. */
  ghost predicate WronglyDiverged(before: Files, after: Files, remote: Remote, local: Hash, tip: Hash) {
    && ClosedStore(before) && local in before && OnMainline(local, tip) && Pullable(remote, tip)
    && Adds(before, after, MainlineReach(tip), remote) && Walkable(before.Keys, Some(local), tip)
    && after.Keys == before.Keys + Gathered(before.Keys, Some(local), tip)
    && Classify(after, Some(local), tip, Stop(before.Keys, Some(local), tip)) == Diverged(local, tip)
  }

  /** ... and it can make the answer wrong, though never unsafe: the local walk starts at the named
      commit, whose own parent was never fetched, and so does not find a local tip further down. From a
      closed store that holds the local tip, against an honest server, a tip whose mainline has the
      local tip is called diverged. */
  lemma CommitNamedAsBlobMisjudges()
    ensures exists before, after, remote, local, tip :: WronglyDiverged(before, after, remote, local, tip)
  {
    var tree := HashOf(TreeObject(Tree(map[])));
    var local := Root(map[], []);
    var middle := Root(map[], [local]);
    var parent := Root(map[], [middle]);
    var tip := Root(map["K" := parent], [parent]);
    assert TreeEntries(CommitFromBytes(tip.bytes).value.fields.treeHash)["K"] == parent;
    Misjudged(tree, local, middle, parent, tip);
  }

  /** A root over an empty tree, two commits over the same tree, and a tip that names the last one. */
  ghost predicate NamesItsParent(tree: Hash, local: Hash, middle: Hash, parent: Hash, tip: Hash) {
    && TreeFromBytes(tree.bytes) == Some(Tree(map[]))
    && Parents(local) == [] && Parents(middle) == [local] && Parents(parent) == [middle] && Parents(tip) == [parent]
    && (forall c | c in {local, middle, parent} ::
        CommitFromBytes(c.bytes).Some? && CommitFromBytes(c.bytes).value.fields.treeHash == tree)
    && CommitFromBytes(tip.bytes).Some? && TreeFromBytes(CommitFromBytes(tip.bytes).value.fields.treeHash.bytes).Some?
    && TreeEntries(CommitFromBytes(tip.bytes).value.fields.treeHash).Values == {parent}
  }

  lemma NamedShape(tree: Hash, local: Hash, middle: Hash, parent: Hash, tip: Hash) returns (top: Hash)
    requires NamesItsParent(tree, local, middle, parent, tip)
    ensures Own(local) == {local, tree} && Own(middle) == {middle, tree} && Own(parent) == {parent, tree}
    ensures Own(tip) == {tip, top, parent} && TreeFromBytes(top.bytes).Some?
    ensures middle !in {local, tree, tip, top, parent} && tip !in {local, tree} && parent !in {local, tree}
              && local != top
  {
    top := CommitFromBytes(tip.bytes).value.fields.treeHash;
  }

  lemma NamedChain(tree: Hash, local: Hash, middle: Hash, parent: Hash, tip: Hash)
    requires NamesItsParent(tree, local, middle, parent, tip)
    ensures OnMainline(local, tip) && forall c | c in Mainline(tip) :: c in {tip, parent, middle, local}
  {
    assert Mainline(local) == [local];
    assert Mainline(middle) == [middle] + Mainline(local);
    assert Mainline(parent) == [parent] + Mainline(middle);
    assert Mainline(tip) == [tip] + Mainline(parent);
    assert local in Mainline(tip);
  }

  lemma NamedWalk(have: set<Hash>, tree: Hash, local: Hash, middle: Hash, parent: Hash, tip: Hash)
    requires NamesItsParent(tree, local, middle, parent, tip) && have == {local, tree}
    ensures Stop(have, Some(local), tip) == Some(parent) && Gathered(have, Some(local), tip) == Own(tip)
    ensures Walkable(have, Some(local), tip)
  {
    var top := NamedShape(tree, local, middle, parent, tip);
    assert FirstParent(tip) == Some(parent) && parent in have + Own(tip);
    assert Stop(have + Own(tip), Some(local), parent) == Some(parent);
    assert Gathered(have + Own(tip), Some(local), parent) == {};
    assert Walkable(have + Own(tip), Some(local), parent);
  }

  lemma NamedClosed(before: Files, tree: Hash, local: Hash)
    requires Parents(local) == [] && Own(local) == {local, tree} && TreeFromBytes(tree.bytes) == Some(Tree(map[]))
    requires CommitFromBytes(local.bytes).Some? && CommitFromBytes(local.bytes).value.fields.treeHash == tree
    requires before.Keys == {local, tree} && Intact(before)
    ensures ClosedStore(before)
  {
    assert MainlineHeld(before, tree) && MainlineHeld(before, local);
  }

  lemma NamedServed(remote: Remote, tree: Hash, local: Hash, middle: Hash, parent: Hash, tip: Hash)
    requires NamesItsParent(tree, local, middle, parent, tip)
    requires forall h | h in Own(tip) + {middle, local, tree} :: Holds(remote.objects, h)
    ensures Pullable(remote, tip)
  {
    var top := NamedShape(tree, local, middle, parent, tip);
    NamedChain(tree, local, middle, parent, tip);
  }

  lemma NamedAnswer(after: Files, tree: Hash, local: Hash, middle: Hash, parent: Hash, tip: Hash)
    requires NamesItsParent(tree, local, middle, parent, tip) && after.Keys == {local, tree} + Own(tip)
    ensures Classify(after, Some(local), tip, Some(parent)) == Diverged(local, tip)
  {
    var top := NamedShape(tree, local, middle, parent, tip);
    assert middle !in after.Keys;
    assert FirstParent(parent) == Some(middle);
    assert !LocalReaches(after, middle, local);
  }

  lemma NamedAdds(before: Files, after: Files, remote: Remote, have: set<Hash>, tip: Hash)
    requires Intact(before) && Intact(after) && before.Keys == have && after.Keys == have + Own(tip)
    requires forall h | h in Own(tip) :: Holds(remote.objects, h)
    ensures Adds(before, after, MainlineReach(tip), remote)
  {
    assert OnMainline(tip, tip);
    OwnOnMainline(tip, tip);
  }

  lemma Misjudged(tree: Hash, local: Hash, middle: Hash, parent: Hash, tip: Hash)
    requires NamesItsParent(tree, local, middle, parent, tip)
    ensures exists before, after, remote :: WronglyDiverged(before, after, remote, local, tip)
  {
    var before, after := FilesOf({local, tree}), FilesOf({local, tree} + Own(tip));
    var remote := Remote(FilesOf(Own(tip) + {middle, local, tree}), Some(tip));
    var top := NamedShape(tree, local, middle, parent, tip);
    NamedChain(tree, local, middle, parent, tip);
    NamedWalk({local, tree}, tree, local, middle, parent, tip);
    NamedClosed(before, tree, local);
    NamedServed(remote, tree, local, middle, parent, tip);
    NamedAdds(before, after, remote, {local, tree}, tip);
    NamedAnswer(after, tree, local, middle, parent, tip);
    assert WronglyDiverged(before, after, remote, local, tip);
  }

  function FilesOf(hashes: set<Hash>): (files: Files)
    ensures files.Keys == hashes && Intact(files)
  {
    map h | h in hashes :: h.bytes
  }
}
