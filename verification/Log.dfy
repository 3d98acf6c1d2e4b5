// Verified history walk along first parents.
module Log {
  import opened Wrappers
  import opened Crypto
  import opened Objects
  import opened History
  import opened Vcs

  datatype VerifiedCommit = VerifiedCommit(hash: Hash, commit: Commit)

  type Resolver = PersonId -> Option<PersonId>

  /** Why one commit is refused, if it is: unreadable, no known key for its author, or a signature
      that does not verify against that key. */
  function Check(files: Files, h: Hash, resolve: Resolver): (r: Result<VerifiedCommit, VcsError>)
    ensures r.Ok? ==> r.value.hash == h && CommitFromBytes(h.bytes) == Some(r.value.commit)
  {
    match LoadCommit(files, h)
    case Err(e) => Err(e)
    case Ok(commit) =>
      match resolve(commit.fields.authorId)
      case None => Err(UnknownSigner(commit.fields.authorId))
      case Some(key) =>
        match VerifyCommitSignature(commit, h, key)
        case Err(e) => Err(e)
        case Ok(_) => Ok(VerifiedCommit(h, commit))
  }

  /** A commit is authentic when it is the canonical object of its hash and carries the signature
      of the key its own author resolves to. */
  ghost predicate Authentic(files: Files, h: Hash, resolve: Resolver) {
    && LoadCommit(files, h).Ok?
    && var c := LoadCommit(files, h).value;
       resolve(c.fields.authorId).Some? && c.signature == Signed(resolve(c.fields.authorId).value, c.fields)
  }

  lemma CheckIsAuthentic(files: Files, h: Hash, resolve: Resolver)
    ensures Check(files, h, resolve).Ok? <==> Authentic(files, h, resolve)
  {}

  /** A refusal says why: the commit does not load, its author is unknown, or the signature is not that
      author's over its fields. */
  lemma RefusalSaysWhy(files: Files, h: Hash, resolve: Resolver, e: VcsError)
    requires Check(files, h, resolve) == Err(e)
    ensures LoadCommit(files, h).Err? ==> LoadCommit(files, h) == Err(e)
    ensures LoadCommit(files, h).Ok? ==>
              var c := LoadCommit(files, h).value;
              match resolve(c.fields.authorId)
              case None => e == UnknownSigner(c.fields.authorId)
              case Some(key) =>
                && c.signature != Signed(key, c.fields)
                && (e == SignatureInvalid || (c.signature.Forged? && e == BadSignatureLength(h, c.signature.length)))
  {}

  /** `history` is the mainline of `tip` from the tip to the root, every commit authentic. */
  ghost predicate IsVerifiedMainline(files: Files, tip: Hash, resolve: Resolver, history: seq<VerifiedCommit>) {
    && |history| == |Mainline(tip)|
    && forall i | 0 <= i < |history| ::
         && history[i].hash == Mainline(tip)[i]
         && CommitFromBytes(history[i].hash.bytes) == Some(history[i].commit)
         && Authentic(files, history[i].hash, resolve)
  }

  /** The refusal a walk from `tip` reports: that of the first commit on the mainline that is not
      authentic. */
  ghost predicate IsFirstRefusal(files: Files, tip: Hash, resolve: Resolver, e: VcsError) {
    exists i | 0 <= i < |Mainline(tip)| ::
      && Check(files, Mainline(tip)[i], resolve) == Err(e)
      && forall j | 0 <= j < i :: Authentic(files, Mainline(tip)[j], resolve)
  }

  lemma MainlineStep(tip: Hash, i: nat)
    requires i < |Mainline(tip)|
    ensures FirstParent(Mainline(tip)[i]) == if i + 1 < |Mainline(tip)| then Some(Mainline(tip)[i + 1]) else None
    decreases tip
  {
    if i > 0 {
      MainlineStep(FirstParent(tip).value, i - 1);
    }
  }

  method LogFrom(store: LocalObjectStore, tip: Hash, resolve: Resolver)
    returns (r: Result<seq<VerifiedCommit>, VcsError>)
    ensures r.Ok? ==> IsVerifiedMainline(store.files, tip, resolve, r.value)
    ensures r.Err? ==> IsFirstRefusal(store.files, tip, resolve, r.error)
  {
    var history: seq<VerifiedCommit> := [];
    var cursor := Some(tip);
    ghost var chain := Mainline(tip);
    while cursor.Some?
      invariant |history| <= |chain|
      invariant cursor == if |history| < |chain| then Some(chain[|history|]) else None
      invariant forall i | 0 <= i < |history| ::
                  && history[i].hash == chain[i]
                  && CommitFromBytes(history[i].hash.bytes) == Some(history[i].commit)
                  && Authentic(store.files, history[i].hash, resolve)
      decreases |chain| - |history|
    {
      var hash := cursor.value;
      CheckIsAuthentic(store.files, hash, resolve);
      MainlineStep(tip, |history|);
      var loaded := LoadCommit(store.files, hash);
      if loaded.Err? {
        assert Check(store.files, chain[|history|], resolve) == Err(loaded.error);
        return Err(loaded.error);
      }
      var commit := loaded.value;
      var signer := resolve(commit.fields.authorId);
      if signer.None? {
        assert Check(store.files, chain[|history|], resolve) == Err(UnknownSigner(commit.fields.authorId));
        return Err(UnknownSigner(commit.fields.authorId));
      }
      var verified := VerifyCommitSignature(commit, hash, signer.value);
      if verified.Err? {
        assert Check(store.files, chain[|history|], resolve) == Err(verified.error);
        return Err(verified.error);
      }
      var parents := commit.fields.parentHashes;
      cursor := if parents == [] then None else Some(parents[0]);
      history := history + [VerifiedCommit(hash, commit)];
    }
    return Ok(history);
  }

  /** Two walks that succeed agree, whatever was done to either store. */
  lemma VerifiedMainlineUnique(
    files: Files, files': Files, tip: Hash, resolve: Resolver, resolve': Resolver,
    history: seq<VerifiedCommit>, history': seq<VerifiedCommit>)
    requires IsVerifiedMainline(files, tip, resolve, history)
    requires IsVerifiedMainline(files', tip, resolve', history')
    ensures history == history'
  {
    forall i | 0 <= i < |history| ensures history[i] == history'[i] {
      assert history[i].hash == history'[i].hash;
    }
  }

  /** No run both succeeds and refuses: the two outcomes exclude each other. */
  lemma VerifiedOrRefused(files: Files, tip: Hash, resolve: Resolver, history: seq<VerifiedCommit>, e: VcsError)
    requires IsVerifiedMainline(files, tip, resolve, history)
    ensures !IsFirstRefusal(files, tip, resolve, e)
  {
    forall i | 0 <= i < |Mainline(tip)| ensures Check(files, Mainline(tip)[i], resolve).Ok? {
      CheckIsAuthentic(files, history[i].hash, resolve);
    }
  }

  /** The distinct authors of the mainline of `tip`. */
  ghost predicate AreMainlineAuthors(tip: Hash, authors: set<PersonId>) {
    forall a :: a in authors <==>
      exists h | h in Mainline(tip) :: CommitFromBytes(h.bytes).Some?
        && CommitFromBytes(h.bytes).value.fields.authorId == a
  }

  method MainlineAuthorIds(store: LocalObjectStore, tip: Hash) returns (r: Result<set<PersonId>, VcsError>)
    ensures r.Ok? ==> AreMainlineAuthors(tip, r.value)
    ensures r.Ok? <==> forall h | h in Mainline(tip) :: LoadCommit(store.files, h).Ok?
  {
    var authors: set<PersonId> := {};
    var cursor := Some(tip);
    ghost var chain := Mainline(tip);
    ghost var n := 0;
    while cursor.Some?
      invariant n <= |chain|
      invariant cursor == if n < |chain| then Some(chain[n]) else None
      invariant forall i | 0 <= i < n :: LoadCommit(store.files, chain[i]).Ok?
      invariant forall i | 0 <= i < n :: CommitFromBytes(chain[i].bytes).value.fields.authorId in authors
      invariant forall a | a in authors :: exists i | 0 <= i < n ::
                  CommitFromBytes(chain[i].bytes).value.fields.authorId == a
      decreases |chain| - n
    {
      MainlineStep(tip, n);
      var loaded := LoadCommit(store.files, cursor.value);
      if loaded.Err? {
        assert cursor.value in chain;
        return Err(loaded.error);
      }
      var fields := loaded.value.fields;
      assert CommitFromBytes(chain[n].bytes).value.fields.authorId == fields.authorId;
      authors := authors + {fields.authorId};
      cursor := if fields.parentHashes == [] then None else Some(fields.parentHashes[0]);
      n := n + 1;
    }
    return Ok(authors);
  }

  /** A resolver that knows every author `MainlineAuthorIds` reports never meets an unknown signer. */
  lemma CoveringResolverKnowsSigners(
    files: Files, tip: Hash, authors: set<PersonId>, resolve: Resolver, e: VcsError)
    requires AreMainlineAuthors(tip, authors)
    requires forall a | a in authors :: resolve(a).Some?
    requires IsFirstRefusal(files, tip, resolve, e)
    ensures !e.UnknownSigner?
  {
    var i :| 0 <= i < |Mainline(tip)| && Check(files, Mainline(tip)[i], resolve) == Err(e);
    AuthorIsKnown(tip, authors, Mainline(tip)[i]);
    KnownSignerChecks(files, Mainline(tip)[i], resolve);
  }

  lemma KnownSignerChecks(files: Files, h: Hash, resolve: Resolver)
    requires CommitFromBytes(h.bytes).Some? ==> resolve(CommitFromBytes(h.bytes).value.fields.authorId).Some?
    ensures Check(files, h, resolve).Err? ==> !Check(files, h, resolve).error.UnknownSigner?
  {}

  lemma AuthorIsKnown(tip: Hash, authors: set<PersonId>, h: Hash)
    requires AreMainlineAuthors(tip, authors) && h in Mainline(tip)
    ensures CommitFromBytes(h.bytes).Some? ==> CommitFromBytes(h.bytes).value.fields.authorId in authors
  {}
}
