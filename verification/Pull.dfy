// Pull: walk the remote branch's first-parent chain, verifying and storing each missing commit,
// until something already held is met, then classify the result.
module Pull {
  import opened Wrappers
  import opened Objects
  import opened History

  datatype SyncError =
    | NotFound
    | IntegrityMismatch(requested: Hash, actual: Hash)
    | BadObject(error: ObjectError)
    | Deserialize
    | MultiParentCommit(hash: Hash)

  datatype PullOutcome = UpToDate | FastForward(newTip: Hash) | Diverged(localTip: Hash, remoteTip: Hash)

  /** What a server would answer, honest or not: a body, if any, for each requested hash, and the
      branch's ref. No hash is requested twice by one pull. */
  datatype Remote = Remote(objects: Files, ref: Option<Hash>)

  /** Fetched bytes are handed on only if they hash to what was asked for. */
  function FetchObject(remote: Remote, hash: Hash): (r: Result<Bytes, SyncError>)
    ensures r.Ok? <==> Holds(remote.objects, hash)
    ensures r.Ok? ==> r.value == hash.bytes
  {
    if hash !in remote.objects then Err(NotFound)
    else
      var bytes := remote.objects[hash];
      if Of(bytes) != hash then Err(IntegrityMismatch(hash, Of(bytes))) else Ok(bytes)
  }

  /** `after` adds to `before` only verified objects of `allowed`, and changes nothing. */
  ghost predicate Adds(before: Files, after: Files, allowed: set<Hash>, remote: Remote) {
    && Extends(before, after)
    && forall h | h in after && h !in before :: h in allowed && after[h] == h.bytes && Holds(remote.objects, h)
  }

  method FetchAndStoreTree(remote: Remote, store: LocalObjectStore, hash: Hash) returns (r: Result<Tree, SyncError>)
    modifies store
    ensures Adds(old(store.files), store.files, {hash}, remote)
    ensures r.Ok? ==> TreeFromBytes(hash.bytes) == Some(r.value) && store.files.Keys == old(store.files.Keys) + {hash}
    ensures r.Ok? <==>
              && TreeFromBytes(hash.bytes).Some?
              && Holds(if hash in old(store.files) then old(store.files) else remote.objects, hash)
  {
    var local := store.Get(hash);
    if local.Err? {
      return Err(BadObject(local.error));
    }
    if local.value.Some? {
      var parsed := TreeFromBytes(local.value.value);
      if parsed.None? {
        return Err(Deserialize);
      }
      return Ok(parsed.value);
    }
    var fetched := FetchObject(remote, hash);
    if fetched.Err? {
      return Err(fetched.error);
    }
    var put := store.Put(hash, fetched.value);
    assert put.Ok?;  // the store checks again what was just verified
    var parsed := TreeFromBytes(fetched.value);
    if parsed.None? {
      return Err(Deserialize);
    }
    return Ok(parsed.value);
  }

  /** All that is needed to fetch a commit into a store: it parses, its tree is readable and, if already
      stored, uncorrupted, and what is missing of its objects is served. */
  ghost predicate CanFetch(remote: Remote, files: Files, c: Hash) {
    && CommitFromBytes(c.bytes).Some?
    && var tree := CommitFromBytes(c.bytes).value.fields.treeHash;
       && TreeFromBytes(tree.bytes).Some? && (tree in files ==> Holds(files, tree))
       && forall h | h in Own(c) && h !in files :: Holds(remote.objects, h)
  }

  method FetchAndStoreCommit(remote: Remote, store: LocalObjectStore, hash: Hash) returns (r: Result<Commit, SyncError>)
    requires hash !in store.files
    modifies store
    ensures Adds(old(store.files), store.files, Own(hash), remote)
    ensures Holds(remote.objects, hash) ==> hash in store.files
    ensures r.Ok? ==>
              && CommitFromBytes(hash.bytes) == Some(r.value)
              && TreeFromBytes(r.value.fields.treeHash.bytes).Some?
              && store.files.Keys == old(store.files.Keys) + Own(hash)
    ensures r.Ok? <==> CanFetch(remote, old(store.files), hash)
  {
    ghost var before := store.files;
    var fetched := FetchObject(remote, hash);
    if fetched.Err? {
      return Err(fetched.error);
    }
    var put := store.Put(hash, fetched.value);
    assert put.Ok?;  // the store checks again what was just verified
    var parsed := CommitFromBytes(fetched.value);
    if parsed.None? {
      return Err(Deserialize);
    }
    var commit := parsed.value;

    var tree := FetchAndStoreTree(remote, store, commit.fields.treeHash);
    if tree.Err? {
      return Err(tree.error);
    }
    var blobs := FetchMissingBlobs(remote, store, tree.value.entries.Values);
    if blobs.Err? {
      return Err(blobs.error);
    }
    return Ok(commit);
  }

  method FetchMissingBlobs(remote: Remote, store: LocalObjectStore, blobs: set<Hash>) returns (r: Result<(), SyncError>)
    modifies store
    ensures Adds(old(store.files), store.files, blobs, remote)
    ensures r.Ok? ==> store.files.Keys == old(store.files.Keys) + blobs
    ensures r.Ok? <==> forall h | h in blobs && h !in old(store.files) :: Holds(remote.objects, h)
  {
    ghost var before := store.files;
    var todo := blobs;
    while todo != {}
      invariant todo <= blobs
      invariant Adds(before, store.files, blobs, remote)
      invariant store.files.Keys == before.Keys + (blobs - todo)
      decreases todo
    {
      var blobHash :| blobHash in todo;
      if !store.Contains(blobHash) {
        var body := FetchObject(remote, blobHash);
        if body.Err? {
          return Err(body.error);
        }
        AddsOne(before, store.files, blobs, remote, blobHash);
        var put := store.Put(blobHash, body.value);
        assert put.Ok?;
      }
      todo := todo - {blobHash};
    }
    return Ok(());
  }

  /** Whether a walk of the local first parents from `h` meets `target` before it runs out. */
  function LocalReaches(files: Files, h: Hash, target: Hash): bool
    decreases h
  {
    h == target || (h in files && FirstParent(h).Some? && LocalReaches(files, FirstParent(h).value, target))
  }

  /** Every commit the local walk from `h` reads, up to `target` or the first one that is not stored, is
      uncorrupted and has at most one parent. */
  predicate LocalWalkable(files: Files, h: Hash, target: Hash)
    decreases h
  {
    h == target || h !in files ||
    (&& Holds(files, h) && CommitFromBytes(h.bytes).Some? && |Parents(h)| <= 1
     && (FirstParent(h).Some? ==> LocalWalkable(files, FirstParent(h).value, target)))
  }

  lemma {:induction false} PlainMainlineIsWalkable(files: Files, h: Hash, target: Hash)
    requires Intact(files) && forall c | c in Mainline(h) :: CommitFromBytes(c.bytes).Some? && |Parents(c)| <= 1
    ensures LocalWalkable(files, h, target)
    decreases h
  {
    assert h in Mainline(h);
    if FirstParent(h).Some? {
      PlainMainlineIsWalkable(files, FirstParent(h).value, target);
    }
  }

  /** The local walk from `h` reads `c`: everything from `h` down to `c` is stored and is not the target. */
  ghost predicate Reads(files: Files, h: Hash, target: Hash, c: Hash) {
    OnMainline(c, h) && forall d | OnMainline(d, h) && OnMainline(c, d) :: d in files && d != target
  }

  /** ... said of each commit it reads. */
  lemma {:induction false} LocalWalkableIff(files: Files, h: Hash, target: Hash)
    ensures LocalWalkable(files, h, target) <==>
              forall c | Reads(files, h, target, c) ::
                Holds(files, c) && CommitFromBytes(c.bytes).Some? && |Parents(c)| <= 1
    decreases h
  {
    if h != target && h in files {
      assert Reads(files, h, target, h) by {
        forall d | OnMainline(d, h) && OnMainline(h, d) ensures d == h { MainlineAntisymmetric(d, h); }
      }
      if FirstParent(h).Some? {
        var p := FirstParent(h).value;
        LocalWalkableIff(files, p, target);
        forall c | c != h ensures Reads(files, h, target, c) <==> Reads(files, p, target, c) {
          ReadsFurther(files, h, target, c);
        }
        if Reads(files, p, target, h) { MainlineOrder(h, p); }
      }
    } else {
      forall c | Reads(files, h, target, c) ensures false {
        assert OnMainline(h, h) && OnMainline(c, h);
      }
    }
  }

  lemma ReadsFurther(files: Files, h: Hash, target: Hash, c: Hash)
    requires h in files && h != target && FirstParent(h).Some? && c != h
    ensures Reads(files, h, target, c) <==> Reads(files, FirstParent(h).value, target, c)
  {
    var p := FirstParent(h).value;
    if Reads(files, h, target, c) {
      forall d | OnMainline(d, p) && OnMainline(c, d) ensures d in files && d != target {
        assert OnMainline(d, h);
      }
    }
  }

  method LocalFirstParentReaches(store: LocalObjectStore, from: Hash, target: Hash) returns (r: Result<bool, SyncError>)
    ensures r.Ok? <==> LocalWalkable(store.files, from, target)
    ensures r.Ok? ==> r.value == LocalReaches(store.files, from, target)
  {
    var current := from;
    while true
      invariant LocalReaches(store.files, from, target) == LocalReaches(store.files, current, target)
      invariant LocalWalkable(store.files, from, target) == LocalWalkable(store.files, current, target)
      decreases current
    {
      if current == target {
        return Ok(true);
      }
      var bytes := store.Get(current);
      if bytes.Err? {
        return Err(BadObject(bytes.error));
      }
      if bytes.value.None? {
        return Ok(false);
      }
      var parsed := CommitFromBytes(bytes.value.value);
      if parsed.None? {
        return Err(Deserialize);
      }
      var parents := parsed.value.fields.parentHashes;
      if |parents| >= 2 {
        return Err(MultiParentCommit(current));
      }
      if parents == [] {
        return Ok(false);
      }
      current := parents[0];
    }
  }

  /** Where the walk stops when it holds `have`: at the local tip, at anything already held, or
      past the root. Fetching a commit adds the commit, its tree and its blobs to what is held. */
  ghost function Stop(have: set<Hash>, localTip: Option<Hash>, h: Hash): Option<Hash>
    decreases h
  {
    if localTip == Some(h) || h in have then Some(h)
    else match FirstParent(h)
      case None => None
      case Some(p) => Stop(have + Own(h), localTip, p)
  }

  /** What the walk fetches on its way there. */
  ghost function Gathered(have: set<Hash>, localTip: Option<Hash>, h: Hash): set<Hash>
    decreases h
  {
    if localTip == Some(h) || h in have then {}
    else match FirstParent(h)
      case None => Own(h)
      case Some(p) => Own(h) + Gathered(have + Own(h), localTip, p)
  }

  /** Each commit the walk fetches has a readable tree and at most one parent. */
  ghost predicate Walkable(have: set<Hash>, localTip: Option<Hash>, h: Hash)
    decreases h
  {
    localTip == Some(h) || h in have ||
    (&& CommitFromBytes(h.bytes).Some?
     && TreeFromBytes(CommitFromBytes(h.bytes).value.fields.treeHash.bytes).Some?
     && |Parents(h)| <= 1
     && (FirstParent(h).Some? ==> Walkable(have + Own(h), localTip, FirstParent(h).value)))
  }

  ghost function Classify(files: Files, localTip: Option<Hash>, tip: Hash, stop: Option<Hash>): PullOutcome {
    if localTip.None? then FastForward(tip)
    else if stop.Some? && LocalReaches(files, stop.value, localTip.value) then FastForward(tip)
    else Diverged(localTip.value, tip)
  }

  lemma {:induction false} ReachedIsOnMainline(files: Files, h: Hash, target: Hash)
    requires LocalReaches(files, h, target)
    ensures OnMainline(target, h)
    decreases h
  {
    if h != target {
      ReachedIsOnMainline(files, FirstParent(h).value, target);
    }
  }

  lemma {:induction false} StopIsOnMainline(have: set<Hash>, localTip: Option<Hash>, h: Hash)
    ensures Stop(have, localTip, h).Some? ==> OnMainline(Stop(have, localTip, h).value, h)
    decreases h
  {
    if localTip != Some(h) && h !in have && FirstParent(h).Some? {
      StopIsOnMainline(have + Own(h), localTip, FirstParent(h).value);
    }
  }

  /** The walk from `tip` passes `c`: `c` lies above the stop. */
  ghost predicate Passed(have: set<Hash>, localTip: Option<Hash>, tip: Hash, c: Hash) {
    && OnMainline(c, tip)
    && var stop := Stop(have, localTip, tip); stop.Some? ==> c != stop.value && OnMainline(stop.value, c)
  }

  lemma PassedFurther(have: set<Hash>, localTip: Option<Hash>, h: Hash, c: Hash)
    requires localTip != Some(h) && h !in have
    ensures Passed(have, localTip, h, h)
    ensures FirstParent(h).None? && Passed(have, localTip, h, c) ==> c == h
    ensures FirstParent(h).Some? && c != h ==>
              (Passed(have, localTip, h, c) <==> Passed(have + Own(h), localTip, FirstParent(h).value, c))
    ensures FirstParent(h).Some? ==> !Passed(have + Own(h), localTip, FirstParent(h).value, h)
  {
    assert OnMainline(h, h);
    if FirstParent(h).Some? {
      var p := FirstParent(h).value;
      StopIsOnMainline(have + Own(h), localTip, p);
      if OnMainline(h, p) { MainlineOrder(h, p); }
      var stop := Stop(have + Own(h), localTip, p);
      if stop.Some? && stop.value == h { MainlineOrder(h, p); }
    }
  }

  /** `x` is met by the walk: it is the local tip, held from the start, or named by a commit passed
      above it. */
  ghost predicate Met(have: set<Hash>, localTip: Option<Hash>, tip: Hash, x: Hash) {
    localTip == Some(x) || x in have || exists c :: Passed(have, localTip, tip, c) && c != x && x in Own(c)
  }

  /** The stop is the first commit of the mainline that is met. */
  lemma {:induction false} StopIsFirstMet(have: set<Hash>, localTip: Option<Hash>, tip: Hash)
    ensures var stop := Stop(have, localTip, tip);
            stop.Some? ==> OnMainline(stop.value, tip) && Met(have, localTip, tip, stop.value)
    ensures forall c | Passed(have, localTip, tip, c) :: localTip != Some(c) && c !in have
    decreases tip
  {
    StopIsOnMainline(have, localTip, tip);
    if localTip == Some(tip) || tip in have {
      forall c | Passed(have, localTip, tip, c) ensures false { MainlineAntisymmetric(c, tip); }
    } else {
      PassedFurther(have, localTip, tip, tip);
      if FirstParent(tip).Some? {
        var p := FirstParent(tip).value;
        StopIsFirstMet(have + Own(tip), localTip, p);
        forall c ensures c != tip ==> (Passed(have, localTip, tip, c) <==> Passed(have + Own(tip), localTip, p, c)) {
          PassedFurther(have, localTip, tip, c);
        }
        var stop := Stop(have, localTip, tip);
        if stop.Some? && localTip != stop && stop.value !in have {
          if stop.value in Own(tip) {
            if stop.value == tip { MainlineOrder(tip, p); }
          } else {
            var c :| Passed(have + Own(tip), localTip, p, c) && c != stop.value && stop.value in Own(c);
            assert Passed(have, localTip, tip, c) by { PassedFurther(have, localTip, tip, tip); }
          }
        }
      } else {
        forall c | Passed(have, localTip, tip, c) ensures c == tip { PassedFurther(have, localTip, tip, c); }
      }
    }
  }

  lemma MainlineAntisymmetric(a: Hash, b: Hash)
    requires OnMainline(a, b) && OnMainline(b, a)
    ensures a == b
  {
    MainlineOrder(a, b);
    MainlineOrder(b, a);
  }

  /** What the walk fetches: the objects of the commits it passes. */
  lemma {:induction false} GatheredIs(have: set<Hash>, localTip: Option<Hash>, tip: Hash, x: Hash)
    ensures x in Gathered(have, localTip, tip) <==> exists c :: Passed(have, localTip, tip, c) && x in Own(c)
    decreases tip
  {
    if localTip == Some(tip) || tip in have {
      forall c | Passed(have, localTip, tip, c) ensures false { MainlineAntisymmetric(c, tip); }
    } else {
      PassedFurther(have, localTip, tip, tip);
      if FirstParent(tip).Some? {
        var p := FirstParent(tip).value;
        GatheredIs(have + Own(tip), localTip, p, x);
        forall c ensures c != tip ==> (Passed(have, localTip, tip, c) <==> Passed(have + Own(tip), localTip, p, c)) {
          PassedFurther(have, localTip, tip, c);
        }
      } else {
        forall c | Passed(have, localTip, tip, c) ensures c == tip { PassedFurther(have, localTip, tip, c); }
      }
    }
  }

  /** Every commit the walk passes can be fetched and has at most one parent. Nothing is asked of the
      stop, which may be a merge commit, nor of anything below it. */
  ghost predicate WalkClean(remote: Remote, before: Files, localTip: Option<Hash>, tip: Hash) {
    forall c | Passed(before.Keys, localTip, tip, c) :: CanFetch(remote, before, c) && |Parents(c)| <= 1
  }

  /** The same along the walk, `have` being what is held when it has come to `h`. */
  ghost predicate WalkOk(remote: Remote, before: Files, have: set<Hash>, localTip: Option<Hash>, h: Hash)
    decreases h
  {
    localTip == Some(h) || h in have ||
    (&& CanFetch(remote, before, h) && |Parents(h)| <= 1
     && (FirstParent(h).Some? ==> WalkOk(remote, before, have + Own(h), localTip, FirstParent(h).value)))
  }

  lemma {:induction false} WalkOkIff(remote: Remote, before: Files, have: set<Hash>, localTip: Option<Hash>, h: Hash)
    ensures WalkOk(remote, before, have, localTip, h) <==>
              forall c | Passed(have, localTip, h, c) :: CanFetch(remote, before, c) && |Parents(c)| <= 1
    decreases h
  {
    if localTip == Some(h) || h in have {
      forall c | Passed(have, localTip, h, c) ensures false { MainlineAntisymmetric(c, h); }
    } else {
      PassedFurther(have, localTip, h, h);
      forall c | c != h && Passed(have, localTip, h, c)
        ensures FirstParent(h).Some? && Passed(have + Own(h), localTip, FirstParent(h).value, c)
      {
        PassedFurther(have, localTip, h, c);
      }
      if FirstParent(h).Some? {
        var p := FirstParent(h).value;
        WalkOkIff(remote, before, have + Own(h), localTip, p);
        forall c | Passed(have + Own(h), localTip, p, c) ensures Passed(have, localTip, h, c) {
          PassedFurther(have, localTip, h, c);
        }
      }
    }
  }

  lemma {:induction false} OkIsWalkable(remote: Remote, before: Files, have: set<Hash>, localTip: Option<Hash>, h: Hash)
    requires WalkOk(remote, before, have, localTip, h)
    ensures Walkable(have, localTip, h)
    decreases h
  {
    if localTip != Some(h) && h !in have && FirstParent(h).Some? {
      OkIsWalkable(remote, before, have + Own(h), localTip, FirstParent(h).value);
    }
  }

  /** A commit directly on top of the local tip is fetched and fast-forwards, also when the local tip is
      a merge commit. */
  lemma OnTopOfLocalTip(remote: Remote, before: Files, m: Hash, tip: Hash)
    requires Parents(tip) == [m] && tip !in before && CanFetch(remote, before, tip)
    ensures WalkClean(remote, before, Some(m), tip) && Stop(before.Keys, Some(m), tip) == Some(m)
    ensures forall files :: Classify(files, Some(m), tip, Some(m)) == FastForward(tip)
  {
    if m == tip { MainlineOrder(FirstParent(tip).value, tip); }
    WalkOkIff(remote, before, before.Keys, Some(m), tip);
  }

  /** Safety, for every store and every server: a pull answers fast-forward only when there is no local
      tip or the local tip is on the remote mainline. Moving to the new tip never drops local commits. */
  lemma FastForwardIsSafe(files: Files, have: set<Hash>, localTip: Option<Hash>, tip: Hash)
    ensures Classify(files, localTip, tip, Stop(have, localTip, tip)).FastForward? ==>
              localTip.None? || OnMainline(localTip.value, tip)
  {
    var stop := Stop(have, localTip, tip);
    StopIsOnMainline(have, localTip, tip);
    if localTip.Some? && stop.Some? && LocalReaches(files, stop.value, localTip.value) {
      ReachedIsOnMainline(files, stop.value, localTip.value);
      MainlineTransitive(localTip.value, stop.value, tip);
    }
  }

  /** An honest server's answers suffice for a walk of `tip`'s mainline. */
  ghost predicate Pullable(remote: Remote, tip: Hash) {
    forall c | c in Mainline(tip) ::
      && CommitFromBytes(c.bytes).Some?
      && TreeFromBytes(CommitFromBytes(c.bytes).value.fields.treeHash.bytes).Some?
      && |Parents(c)| <= 1
      && forall h | h in Own(c) :: Holds(remote.objects, h)
  }

  /** A store with some objects added. */
  ghost function Filled(files: Files, hashes: set<Hash>): Files {
    files + map h | h in hashes && h !in files :: h.bytes
  }

  /** With a local tip and a stop, what the local walk between them reads can be read. */
  ghost predicate AnswerReadable(before: Files, localTip: Option<Hash>, tip: Hash) {
    var stop := Stop(before.Keys, localTip, tip);
    localTip.Some? && stop.Some? ==>
      LocalWalkable(Filled(before, Gathered(before.Keys, localTip, tip)), stop.value, localTip.value)
  }

  /** Exactly when a pull succeeds: there is nothing to do, or every commit down to the stop can be fetched
      and the local walk from the stop can be read. */
  ghost predicate PullWorks(remote: Remote, before: Files, localTip: Option<Hash>) {
    || remote.ref.None? || remote.ref == localTip
    || (WalkClean(remote, before, localTip, remote.ref.value) && AnswerReadable(before, localTip, remote.ref.value))
  }

  lemma FilledIs(before: Files, after: Files, hashes: set<Hash>, allowed: set<Hash>, remote: Remote)
    requires Adds(before, after, allowed, remote) && after.Keys == before.Keys + hashes
    ensures after == Filled(before, hashes)
  {}

  lemma PullableIsReadable(remote: Remote, before: Files, localTip: Option<Hash>, tip: Hash)
    requires Intact(before) && Pullable(remote, tip)
    ensures AnswerReadable(before, localTip, tip)
  {
    var stop, after := Stop(before.Keys, localTip, tip), Filled(before, Gathered(before.Keys, localTip, tip));
    StopIsOnMainline(before.Keys, localTip, tip);
    if localTip.Some? && stop.Some? {
      forall c | c in Mainline(stop.value) ensures CommitFromBytes(c.bytes).Some? && |Parents(c)| <= 1 {
        MainlineTransitive(c, stop.value, tip);
        assert c in Mainline(tip);
      }
      PlainMainlineIsWalkable(after, stop.value, localTip.value);
    }
  }

  method PullBranch(remote: Remote, store: LocalObjectStore, localTip: Option<Hash>)
    returns (r: Result<PullOutcome, SyncError>)
    modifies store
    ensures remote.ref.None? || remote.ref == localTip ==> r == Ok(UpToDate) && store.files == old(store.files)
    ensures remote.ref.Some? ==> Adds(old(store.files), store.files, MainlineReach(remote.ref.value), remote)
    ensures remote.ref.Some? && remote.ref != localTip && Holds(remote.objects, remote.ref.value) ==>
              remote.ref.value in store.files
    ensures r.Ok? && remote.ref.Some? && remote.ref != localTip ==>
              var tip, have := remote.ref.value, old(store.files.Keys);
              && Walkable(have, localTip, tip)
              && store.files.Keys == have + Gathered(have, localTip, tip)
              && r.value == Classify(store.files, localTip, tip, Stop(have, localTip, tip))
    ensures r.Ok? && r.value.FastForward? ==>
              && remote.ref == Some(r.value.newTip)
              && (localTip.None? || OnMainline(localTip.value, r.value.newTip))
    ensures r.Ok? <==> PullWorks(remote, old(store.files), localTip)
    ensures Intact(old(store.files)) && remote.ref.Some? && Pullable(remote, remote.ref.value) ==> r.Ok?
  {
    if remote.ref.None? {
      return Ok(UpToDate);
    }
    var remoteTip := remote.ref.value;
    if localTip == Some(remoteTip) {
      return Ok(UpToDate);
    }
    if Intact(store.files) && Pullable(remote, remoteTip) {
      PullableIsClean(remote, store.files, localTip, remoteTip);
      PullableIsReadable(remote, store.files, localTip, remoteTip);
    }
    var walk := WalkToKnown(remote, store, localTip, remoteTip);
    if walk.Err? {
      return Err(walk.error);
    }
    ghost var have := old(store.files).Keys;
    OkIsWalkable(remote, old(store.files), have, localTip, remoteTip);
    FilledIs(old(store.files), store.files, Gathered(have, localTip, remoteTip), MainlineReach(remoteTip), remote);
    FastForwardIsSafe(store.files, have, localTip, remoteTip);
    r := AnswerFor(store, localTip, remoteTip, walk.value, have);
  }

  /** The answer for where the walk stopped. */
  method AnswerFor(
    store: LocalObjectStore, localTip: Option<Hash>, remoteTip: Hash, kind: StopKind, ghost have: set<Hash>)
    returns (r: Result<PullOutcome, SyncError>)
    requires kind == Kind(localTip, Stop(have, localTip, remoteTip))
    ensures var stop := Stop(have, localTip, remoteTip);
            && (r.Ok? <==> (localTip.Some? && stop.Some? ==> LocalWalkable(store.files, stop.value, localTip.value)))
            && (r.Ok? ==> r.value == Classify(store.files, localTip, remoteTip, stop))
  {
    if localTip.None? {
      return Ok(FastForward(remoteTip));
    }
    match kind {
      case AtLocalTip => return Ok(FastForward(remoteTip));
      case PastRoot => return Ok(Diverged(localTip.value, remoteTip));
      case AtKnown(boundary) =>
        var reaches := LocalFirstParentReaches(store, boundary, localTip.value);
        if reaches.Err? {
          return Err(reaches.error);
        }
        return Ok(if reaches.value then FastForward(remoteTip) else Diverged(localTip.value, remoteTip));
    }
  }

  datatype StopKind = AtLocalTip | AtKnown(boundary: Hash) | PastRoot

  ghost function Kind(localTip: Option<Hash>, stop: Option<Hash>): StopKind {
    match stop
    case None => PastRoot
    case Some(h) => if localTip == Some(h) then AtLocalTip else AtKnown(h)
  }

  /** The state of the fetching loop at `current`: what is left of the walk from the tip is the
      walk from here. */
  ghost predicate Walking(
    remote: Remote, localTip: Option<Hash>, tip: Hash, before: Files, now: Files, current: Hash)
  {
    && OnMainline(current, tip)
    && Adds(before, now, MainlineReach(tip), remote)
    && (if current == tip then now == before else Holds(remote.objects, tip) ==> tip in now)
    && Stop(before.Keys, localTip, tip) == Stop(now.Keys, localTip, current)
    && before.Keys + Gathered(before.Keys, localTip, tip) == now.Keys + Gathered(now.Keys, localTip, current)
    && (WalkOk(remote, before, now.Keys, localTip, current) <==> WalkOk(remote, before, before.Keys, localTip, tip))
  }

  /** What a finished walk has done. */
  ghost predicate WalkDone(
    remote: Remote, localTip: Option<Hash>, tip: Hash, before: Files, now: Files, kind: StopKind)
  {
    && WalkOk(remote, before, before.Keys, localTip, tip)
    && now.Keys == before.Keys + Gathered(before.Keys, localTip, tip)
    && kind == Kind(localTip, Stop(before.Keys, localTip, tip))
    && (kind.AtKnown? ==> OnMainline(kind.boundary, tip))
  }

  lemma WalkStops(remote: Remote, localTip: Option<Hash>, tip: Hash, before: Files, now: Files, current: Hash)
    requires Walking(remote, localTip, tip, before, now, current)
    requires localTip == Some(current) || current in now
    ensures WalkDone(remote, localTip, tip, before, now, Kind(localTip, Some(current)))
  {}

  lemma WalkFetches(
    remote: Remote, localTip: Option<Hash>, tip: Hash, before: Files, mid: Files, now: Files, current: Hash)
    requires Walking(remote, localTip, tip, before, mid, current)
    requires localTip != Some(current) && current !in mid
    requires CanFetch(remote, mid, current) && |Parents(current)| <= 1
    requires Adds(mid, now, Own(current), remote) && now.Keys == mid.Keys + Own(current)
    requires Holds(remote.objects, current) ==> current in now
    ensures if Parents(current) == [] then WalkDone(remote, localTip, tip, before, now, PastRoot)
            else Walking(remote, localTip, tip, before, now, Parents(current)[0])
  {
    OwnOnMainline(current, tip);
    AddsTransitive(before, mid, now, MainlineReach(tip), Own(current), remote);
    assert current == tip || (Holds(remote.objects, tip) ==> tip in mid);
    FetchableNow(remote, before, mid, current, MainlineReach(tip));
    Unfold(mid.Keys, localTip, current);
    if Parents(current) != [] {
      MainlineTransitive(Parents(current)[0], current, tip);
      MainlineOrder(current, tip);
    }
  }

  lemma Unfold(have: set<Hash>, localTip: Option<Hash>, h: Hash)
    requires localTip != Some(h) && h !in have
    requires CommitFromBytes(h.bytes).Some? && |Parents(h)| <= 1
    requires TreeFromBytes(CommitFromBytes(h.bytes).value.fields.treeHash.bytes).Some?
    ensures var after := have + Own(h);
            if Parents(h) == [] then
              Stop(have, localTip, h) == None && have + Gathered(have, localTip, h) == after
            else
              var p := Parents(h)[0];
              && Stop(have, localTip, h) == Stop(after, localTip, p)
              && have + Gathered(have, localTip, h) == after + Gathered(after, localTip, p)
  {}

  lemma {:induction false} MainlineOrder(c: Hash, tip: Hash)
    requires OnMainline(c, tip)
    ensures c == tip || c < tip
    decreases tip
  {
    if c != tip {
      MainlineOrder(c, FirstParent(tip).value);
    }
  }

  /** What can be fetched does not change while verified objects are added. */
  lemma FetchableNow(remote: Remote, before: Files, mid: Files, c: Hash, allowed: set<Hash>)
    requires Adds(before, mid, allowed, remote)
    ensures CanFetch(remote, mid, c) <==> CanFetch(remote, before, c)
  {}

  lemma PullableIsClean(remote: Remote, before: Files, localTip: Option<Hash>, tip: Hash)
    requires Intact(before) && Pullable(remote, tip)
    ensures WalkClean(remote, before, localTip, tip)
  {
    forall c | Passed(before.Keys, localTip, tip, c) ensures CanFetch(remote, before, c) && |Parents(c)| <= 1 {
      assert c in Mainline(tip);
    }
  }

  /** The fetching loop of a pull. */
  method WalkToKnown(remote: Remote, store: LocalObjectStore, localTip: Option<Hash>, remoteTip: Hash)
    returns (r: Result<StopKind, SyncError>)
    requires localTip != Some(remoteTip)
    modifies store
    ensures Adds(old(store.files), store.files, MainlineReach(remoteTip), remote)
    ensures Holds(remote.objects, remoteTip) ==> remoteTip in store.files
    ensures r.Ok? ==> WalkDone(remote, localTip, remoteTip, old(store.files), store.files, r.value)
    ensures r.Ok? <==> WalkClean(remote, old(store.files), localTip, remoteTip)
  {
    ghost var before := store.files;
    var current := remoteTip;
    WalkOkIff(remote, before, before.Keys, localTip, remoteTip);
    while true
      invariant Walking(remote, localTip, remoteTip, before, store.files, current)
      decreases current
    {
      if localTip == Some(current) {
        WalkStops(remote, localTip, remoteTip, before, store.files, current);
        return Ok(AtLocalTip);
      }
      if store.Contains(current) {
        WalkStops(remote, localTip, remoteTip, before, store.files, current);
        return Ok(AtKnown(current));
      }
      ghost var mid := store.files;
      FetchableNow(remote, before, mid, current, MainlineReach(remoteTip));
      var commit := FetchAndStoreCommit(remote, store, current);
      OwnOnMainline(current, remoteTip);
      AddsTransitive(before, mid, store.files, MainlineReach(remoteTip), Own(current), remote);
      if commit.Err? {
        return Err(commit.error);
      }
      var parents := commit.value.fields.parentHashes;
      if |parents| >= 2 {
        return Err(MultiParentCommit(current));
      }
      WalkFetches(remote, localTip, remoteTip, before, mid, store.files, current);
      if parents == [] {
        return Ok(PastRoot);
      }
      current := parents[0];
    }
  }

  lemma {:induction false} MainlineTransitive(a: Hash, b: Hash, c: Hash)
    requires OnMainline(a, b) && OnMainline(b, c)
    ensures OnMainline(a, c)
    decreases c
  {
    if b != c {
      MainlineTransitive(a, b, FirstParent(c).value);
    }
  }

  lemma OwnOnMainline(c: Hash, tip: Hash)
    requires OnMainline(c, tip)
    ensures c in Mainline(tip) && Own(c) <= MainlineReach(tip)
  {}

  lemma AddsOne(a: Files, b: Files, allowed: set<Hash>, remote: Remote, h: Hash)
    requires Adds(a, b, allowed, remote) && h in allowed && h !in b && Holds(remote.objects, h)
    ensures Adds(a, b[h := h.bytes], allowed, remote)
  {}

  lemma AddsTransitive(a: Files, b: Files, c: Files, outer: set<Hash>, inner: set<Hash>, remote: Remote)
    requires Adds(a, b, outer, remote) && Adds(b, c, inner, remote) && inner <= outer
    ensures Adds(a, c, outer, remote)
  {}

  lemma IntactAfter(a: Files, b: Files, allowed: set<Hash>, remote: Remote)
    requires Adds(a, b, allowed, remote)
    ensures Intact(a) ==> Intact(b)
  {}
}
