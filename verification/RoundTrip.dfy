// Push from one machine, pull on another: on a linear history the second store becomes an exact
// copy of what the tip commits to.
module RoundTrip {
  import opened Wrappers
  import opened Crypto
  import opened Objects
  import opened History
  import opened Vcs
  import opened Server
  import opened Pull
  import opened PullGuarantees
  import Log
  import Push
  import CommitBuilder

  lemma WellTypedLinearIsPullable(remote: Remote, tip: Hash)
    requires WellTyped(tip) && Linear(tip) && Complete(remote.objects, tip)
    ensures Pullable(remote, tip) && BlobsAreNotCommits(tip)
  {
    forall c | c in Mainline(tip) ensures c in Ancestors(tip) && Own(c) <= Reach(tip) {
      LinearMainline(tip, c);
      Push.OwnInReach(c, tip);
    }
    forall c, b | c in Mainline(tip) && b in Own(c) && b != c ensures CommitFromBytes(b.bytes).None? {
      TypedOwn(tip, c, b);
    }
  }

  lemma TypedOwn(tip: Hash, c: Hash, b: Hash)
    requires WellTyped(tip) && c in Ancestors(tip) && b in Own(c) && b != c
    ensures CommitFromBytes(b.bytes).None?
  {}

  /** A push whose commits are fully held or already complete on the server leaves the tip complete. */
  lemma PushedTipIsComplete(
    local: Files, before: Files, after: Files, tip: Hash, seen: Option<Hash>, hashes: seq<Hash>)
    requires WellTyped(tip) && Push.Backed(before, local, tip) && Push.CoversPush(local, tip, seen, hashes)
    requires Intact(before) && (seen.Some? ==> Complete(before, seen.value))
    requires Extends(before, after)
    requires forall h | h in after && h !in before :: after[h] == h.bytes
    requires forall h | h in hashes :: h in after
    ensures Complete(after, tip)
  {
    Push.PushSupplies(before, local, tip, seen, hashes);
  }

  /** Main result: the cloned store ends up with the same bytes for every reachable object, and
      nothing else. */
  method PushThenPull(local: LocalObjectStore, server: Server, clone: LocalObjectStore, branch: string, tip: Hash)
    returns (pushed: Result<(), Push.PushError>, pulled: Result<PullOutcome, SyncError>)
    requires local != clone && clone.files == map[]
    requires Push.Sound(local.files, tip) && Linear(tip)
    requires Intact(server.objects)
    requires server.GetRef(branch) != Some(tip)
    requires server.GetRef(branch).Some? ==> Complete(server.objects, server.GetRef(branch).value)
    modifies server`objects, server`refs, clone
    ensures pushed.Ok? && pulled == Ok(FastForward(tip))
    ensures clone.files == map h | h in Reach(tip) :: local.files[h]
  {
    var seen := server.GetRef(branch);
    var collected := Push.CollectObjectsToPush(local, tip, seen);
    Push.SoundAhead(local.files, tip, seen);
    var hashes := collected.value;
    ghost var before := server.objects;
    Push.PushCovers(local.files, tip, seen, hashes);
    TipIsSent(local.files, tip, seen, hashes, before);
    pushed := PushAll(local, server, branch, hashes, seen, tip);
    Push.SoundIsBacked(before, local.files, tip);
    PushedTipIsComplete(local.files, before, server.objects, tip, seen, hashes);
    pulled := CloneLinear(Remote(server.objects, server.GetRef(branch)), clone, tip);
    CompleteCopies(local.files, tip);
  }

  lemma CompleteCopies(files: Files, tip: Hash)
    requires Complete(files, tip)
    ensures (map h | h in Reach(tip) :: files[h]) == (map h | h in Reach(tip) :: h.bytes)
  {}

  /** Cloning from a server that has everything copies exactly what the tip commits to. */
  method CloneLinear(remote: Remote, clone: LocalObjectStore, tip: Hash) returns (r: Result<PullOutcome, SyncError>)
    requires clone.files == map[] && remote.ref == Some(tip)
    requires WellTyped(tip) && Linear(tip) && Complete(remote.objects, tip)
    modifies clone
    ensures r == Ok(FastForward(tip))
    ensures clone.files == map h | h in Reach(tip) :: h.bytes
  {
    WellTypedLinearIsPullable(remote, tip);
    ghost var before := clone.files;
    r := PullBranch(remote, clone, None);
    FreshPullIsExact(before, clone.files, remote, tip);
  }

  lemma TipIsSent(local: Files, tip: Hash, seen: Option<Hash>, hashes: seq<Hash>, objects: Files)
    requires Push.Sound(local, tip) && Push.CoversPush(local, tip, seen, hashes) && seen != Some(tip)
    requires seen.Some? ==> Complete(objects, seen.value)
    ensures tip in hashes || tip in objects
  {
    Push.PushCovers(local, tip, seen, hashes);
    assert tip in Ancestors(tip) && tip in Own(tip) && tip in Reach(tip);
  }

  method PushAll(
    local: LocalObjectStore, server: Server, branch: string, hashes: seq<Hash>, seen: Option<Hash>, tip: Hash)
    returns (r: Result<(), Push.PushError>)
    requires forall h | h in hashes :: Holds(local.files, h)
    requires server.GetRef(branch) == seen && (tip in hashes || tip in server.objects)
    modifies server`objects, server`refs
    ensures r.Ok? && server.GetRef(branch) == Some(tip)
    ensures Extends(old(server.objects), server.objects)
    ensures forall h | h in server.objects && h !in old(server.objects) :: server.objects[h] == h.bytes
    ensures forall h | h in hashes :: h in server.objects
  {
    r := Push.PushObjects(local, server, branch, hashes, seen, tip);
  }

  lemma FreshPullIsExact(before: Files, after: Files, remote: Remote, tip: Hash)
    requires before == map[] && Linear(tip) && BlobsAreNotCommits(tip)
    requires Adds(before, after, MainlineReach(tip), remote)
    requires Walkable(before.Keys, None, tip) && after.Keys == before.Keys + Gathered(before.Keys, None, tip)
    ensures after == map h | h in Reach(tip) :: h.bytes
    ensures Classify(after, None, tip, Stop(before.Keys, None, tip)) == FastForward(tip)
  {
    PullIsComplete(before, after, remote, None, tip);
    LinearReach(tip);
    HeldHasReach(after, tip);
    ExactCopy(after, MainlineReach(tip));
  }

  lemma HeldHasReach(files: Files, tip: Hash)
    requires MainlineHeld(files, tip)
    ensures forall h | h in MainlineReach(tip) :: Holds(files, h)
  {}

  lemma ExactCopy(files: Files, hashes: set<Hash>)
    requires forall h | h in hashes :: Holds(files, h)
    requires forall h | h in files :: h in hashes
    ensures files == map h | h in hashes :: h.bytes
  {}

  /** A store that agrees on everything the tip commits to verifies the same histories. */
  lemma CopyHasSameLog(local: Files, copy: Files, tip: Hash, resolve: Log.Resolver, history: seq<Log.VerifiedCommit>)
    requires forall h | h in Reach(tip) :: Holds(local, h) && Holds(copy, h)
    ensures Log.IsVerifiedMainline(local, tip, resolve, history) <==>
              Log.IsVerifiedMainline(copy, tip, resolve, history)
  {
    forall c | c in Mainline(tip) ensures Log.Authentic(local, c, resolve) <==> Log.Authentic(copy, c, resolve) {
      MainlineIsAncestor(c, tip);
      assert c in Own(c) && c in Reach(tip);
    }
  }

  /** ... and decrypts the tip under the same keys, to the same values. */
  lemma CopyHasSameView(local: Files, copy: Files, tip: Hash, key: KeyId)
    requires forall h | h in Reach(tip) :: Holds(local, h) && Holds(copy, h)
    ensures Readable(local, key, tip) <==> Readable(copy, key, tip)
  {
    assert tip in Ancestors(tip) && tip in Own(tip);
    Push.OwnInReach(tip, tip);
    if CommitFromBytes(tip.bytes).Some? {
      var t := CommitFromBytes(tip.bytes).value.fields.treeHash;
      assert t in Own(tip);
      forall k | k in EntriesOf(tip) ensures EntriesOf(tip)[k] in Own(tip) {}
    }
  }

  lemma {:induction false} MainlineIsAncestor(c: Hash, tip: Hash)
    requires OnMainline(c, tip)
    ensures c in Ancestors(tip)
    decreases tip
  {
    if c != tip {
      MainlineIsAncestor(c, FirstParent(tip).value);
      assert FirstParent(tip).value in Parents(tip);
    }
  }

  // ---- Commit, then log -------------------------------------------------------------------------

  lemma AuthenticInGrownStore(before: Files, after: Files, h: Hash, resolve: Log.Resolver)
    requires Extends(before, after) && Log.Authentic(before, h, resolve)
    ensures Log.Authentic(after, h, resolve)
  {}

  /** What committing builds, a verified walk accepts: if the parent's mainline verifies, so does the
      new commit's, one entry longer, for any resolver that knows the author's key. */
  lemma CommittedHistoryVerifies(
    before: Files, after: Files, key: KeyId, h: Hash, plain: map<string, string>, parents: seq<Hash>,
    author: PersonId, person: PersonId, message: string, timestamp: int,
    resolve: Log.Resolver, history: seq<Log.VerifiedCommit>)
    requires Extends(before, after)
    requires CommitBuilder.Commits(after, key, h, plain, parents, person)
               && CommitBuilder.Authored(h, author, message, timestamp)
    requires resolve(author) == Some(person)
    requires if parents == [] then history == [] else Log.IsVerifiedMainline(before, parents[0], resolve, history)
    ensures Log.IsVerifiedMainline(after, h, resolve, [Log.VerifiedCommit(h, LoadCommit(after, h).value)] + history)
  {
    var longer := [Log.VerifiedCommit(h, LoadCommit(after, h).value)] + history;
    assert Log.Authentic(after, h, resolve);
    assert FirstParent(h) == if parents == [] then None else Some(parents[0]);
    forall i | 0 <= i < |longer|
      ensures longer[i].hash == Mainline(h)[i] && CommitFromBytes(longer[i].hash.bytes) == Some(longer[i].commit)
      ensures Log.Authentic(after, longer[i].hash, resolve)
    {
      if i > 0 {
        assert longer[i] == history[i - 1];
        AuthenticInGrownStore(before, after, history[i - 1].hash, resolve);
      }
    }
  }
}
