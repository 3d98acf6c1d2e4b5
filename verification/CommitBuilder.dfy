// Making objects: encrypt a value into a stored blob, build and sign a commit. All key work goes
// through the agent, one request per value.
module CommitBuilder {
  import opened Wrappers
  import opened Crypto
  import opened KeyOrder
  import opened Objects
  import opened History
  import opened Vcs
  import opened Agent
  import opened Push

  /** Serialise, hash and put one object. */
  method StoreObject(store: LocalObjectStore, item: Object) returns (h: Hash)
    requires Intact(store.files)
    modifies store
    ensures h == HashOf(item) && Holds(store.files, h)
    ensures Intact(store.files) && Extends(old(store.files), store.files)
  {
    h := HashOf(item);
    var put := store.Put(h, ToBytes(item));
    assert put.Ok?;
  }

  method EncryptWith(agent: Agent, context: string, plain: string, nonce: nat)
    returns (r: Result<EncryptedValue, AgentError>)
    modifies agent
    ensures agent.State() == old(agent.State())
    ensures r == if context in agent.deks then Ok(EncryptValue(agent.deks[context], nonce, plain))
              else Err(NoDek(context))
  {
    var response := agent.HandleRequest(Encrypt(context, plain), nonce);
    return if response.Encrypted? then Ok(response.encrypted) else Err(response.why);
  }

  method DecryptWith(agent: Agent, context: string, value: EncryptedValue) returns (r: Result<string, AgentError>)
    modifies agent
    ensures agent.State() == old(agent.State())
    ensures r.Ok? <==> context in agent.deks && DecryptValue(agent.deks[context], value).Some?
    ensures r.Ok? ==> DecryptValue(agent.deks[context], value) == Some(r.value)
  {
    var response := agent.HandleRequest(Decrypt(context, value), 0);
    return if response.Plaintext? then Ok(response.plain) else Err(response.why);
  }

  method SignWith(agent: Agent, fields: CommitFields) returns (r: Result<Signature, AgentError>)
    modifies agent
    ensures agent.State() == old(agent.State())
    ensures r == if agent.identity.Some? then Ok(Signed(agent.identity.value, fields)) else Err(Locked)
  {
    var response := agent.HandleRequest(Sign(fields), 0);
    return if response.SignatureOf? then Ok(response.signature) else Err(response.why);
  }

  /** Encrypt one value under a context's key and store it as a blob. */
  method EncryptAndStore(store: LocalObjectStore, agent: Agent, context: string, plain: string, nonce: nat)
    returns (r: Result<Hash, AgentError>)
    requires Intact(store.files)
    modifies store, agent
    ensures agent.State() == old(agent.State())
    ensures Intact(store.files) && Extends(old(store.files), store.files)
    ensures r.Ok? <==> context in agent.deks
    ensures r.Ok? ==> Holds(store.files, r.value) && Opens(agent.deks[context], r.value) == Some(plain)
  {
    var encrypted := EncryptWith(agent, context, plain, nonce);
    if encrypted.Err? {
      return Err(encrypted.error);
    }
    var blobHash := StoreObject(store, BlobObject(Blob(encrypted.value)));
    return Ok(blobHash);
  }

  /** Fetch a stored blob and decrypt it under a context's key. */
  method DecryptStored(store: LocalObjectStore, agent: Agent, context: string, blobHash: Hash)
    returns (r: Result<string, CipherError>)
    modifies agent
    ensures agent.State() == old(agent.State())
    ensures r.Ok? <==>
              && Holds(store.files, blobHash) && context in agent.deks
              && Opens(agent.deks[context], blobHash).Some?
    ensures r.Ok? ==> Opens(agent.deks[context], blobHash) == Some(r.value)
  {
    var bytes := store.Get(blobHash);
    if bytes.Err? {
      return Err(Corrupt(blobHash));
    }
    if bytes.value.None? {
      return Err(Missing(blobHash));
    }
    var blob := BlobFromBytes(bytes.value.value);
    if blob.None? {
      return Err(Corrupt(blobHash));
    }
    var plain := DecryptWith(agent, context, blob.value.value);
    return if plain.Ok? then Ok(plain.value) else Err(Refusal(plain.error));
  }

  datatype CipherError = Corrupt(hash: Hash) | Missing(hash: Hash) | Refusal(why: AgentError)

  /** The new commit is the canonical, signed object of its hash over a tree that decrypts to exactly
      `plain`, with the given parents. */
  ghost predicate Commits(
    files: Files, key: KeyId, h: Hash, plain: map<string, string>, parents: seq<Hash>, person: PersonId)
  {
    && LoadCommit(files, h).Ok? && Parents(h) == parents
    && VerifyCommitSignature(LoadCommit(files, h).value, h, person).Ok?
    && Readable(files, key, h) && PlainOf(key, EntriesOf(h)) == plain
  }

  /** The commit behind `h` carries exactly this author, message and time. */
  predicate Authored(h: Hash, author: PersonId, message: string, timestamp: int) {
    match CommitFromBytes(h.bytes)
    case Some(c) => c.fields.authorId == author && c.fields.message == message && c.fields.timestamp == timestamp
    case None => false
  }

  ghost predicate BlobsFor(
    files: Files, key: KeyId, entries: map<string, Hash>, plain: map<string, string>, keys: seq<string>)
  {
    && (forall k :: k in entries <==> k in keys)
    && forall k | k in entries :: k in plain && Holds(files, entries[k]) && Opens(key, entries[k]) == Some(plain[k])
  }

  lemma BlobsForGrows(
    before: Files, after: Files, key: KeyId, entries: map<string, Hash>, plain: map<string, string>, keys: seq<string>,
    n: nat, h: Hash)
    requires n < |keys| && BlobsFor(before, key, entries, plain, keys[..n]) && Extends(before, after)
    requires keys[n] in plain && Holds(after, h) && Opens(key, h) == Some(plain[keys[n]])
    ensures BlobsFor(after, key, entries[keys[n] := h], plain, keys[..n + 1])
  {}

  /** The state of the encrypting loop after `n` keys: without the context's key it cannot pass the first. */
  ghost predicate Storing(
    files: Files, deks: map<string, KeyId>, context: string, entries: map<string, Hash>, plain: map<string, string>,
    keys: seq<string>, n: nat)
    requires n <= |keys|
  {
    if context in deks then BlobsFor(files, deks[context], entries, plain, keys[..n]) else n == 0 && entries == map[]
  }

  lemma StoringEnds(
    files: Files, deks: map<string, KeyId>, context: string, entries: map<string, Hash>, plain: map<string, string>,
    keys: seq<string>)
    requires keys == SortedKeys(plain.Keys) && Storing(files, deks, context, entries, plain, keys, |keys|)
    ensures plain == map[] || context in deks
    ensures if context in deks then BlobsFor(files, deks[context], entries, plain, SortedKeys(plain.Keys))
              else entries == map[]
  {}

  /** Encrypt every value, in key order, into stored blobs. */
  method StoreBlobs(store: LocalObjectStore, agent: Agent, context: string, plain: map<string, string>, nonce: nat)
    returns (r: Result<map<string, Hash>, AgentError>)
    requires Intact(store.files)
    modifies store, agent
    ensures agent.State() == old(agent.State())
    ensures Intact(store.files) && Extends(old(store.files), store.files)
    ensures r.Ok? <==> plain == map[] || context in agent.deks
    ensures r.Ok? ==>
              if context in agent.deks
              then BlobsFor(store.files, agent.deks[context], r.value, plain, SortedKeys(plain.Keys))
              else r.value == map[]
  {
    var keys := SortedKeys(plain.Keys);
    var entries: map<string, Hash> := map[];
    for i := 0 to |keys|
      invariant agent.State() == old(agent.State())
      invariant Intact(store.files) && Extends(old(store.files), store.files)
      invariant Storing(store.files, agent.deks, context, entries, plain, keys, i)
    {
      assert keys[i] in keys;
      ghost var before := store.files;
      var blobHash := EncryptAndStore(store, agent, context, plain[keys[i]], nonce + i);
      if blobHash.Err? {
        return Err(blobHash.error);
      }
      BlobsForGrows(before, store.files, agent.deks[context], entries, plain, keys, i, blobHash.value);
      entries := entries[keys[i] := blobHash.value];
    }
    StoringEnds(store.files, agent.deks, context, entries, plain, keys);
    return Ok(entries);
  }

  /** Sign the fields, wrap them into a commit, store it. */
  method SignAndStore(store: LocalObjectStore, agent: Agent, fields: CommitFields) returns (r: Result<Hash, AgentError>)
    requires Intact(store.files)
    modifies store, agent
    ensures agent.State() == old(agent.State())
    ensures Intact(store.files) && Extends(old(store.files), store.files)
    ensures r.Ok? <==> agent.identity.Some?
    ensures r.Ok? ==>
              && r.value == HashOf(CommitObject(Commit(fields, Signed(agent.identity.value, fields))))
              && Holds(store.files, r.value)
  {
    var signature := SignWith(agent, fields);
    if signature.Err? {
      return Err(signature.error);
    }
    var commitHash := StoreObject(store, CommitObject(Commit(fields, signature.value)));
    return Ok(commitHash);
  }

  /** Build, sign and store one commit with the given parents. */
  method BuildAndSign(
    store: LocalObjectStore, agent: Agent, context: string, author: PersonId, parents: seq<Hash>,
    plain: map<string, string>, message: string, timestamp: int, nonce: nat)
    returns (r: Result<Hash, AgentError>)
    requires Intact(store.files)
    modifies store, agent
    ensures agent.State() == old(agent.State())
    ensures Intact(store.files) && Extends(old(store.files), store.files)
    ensures r.Ok? <==> (plain == map[] || context in agent.deks) && agent.identity.Some?
    ensures r.Ok? && context in agent.deks ==>
              Commits(store.files, agent.deks[context], r.value, plain, parents, agent.identity.value)
    ensures r.Ok? ==> Authored(r.value, author, message, timestamp)
    ensures r.Ok? && (forall p | p in parents :: Sound(old(store.files), p)) ==> Sound(store.files, r.value)
  {
    var entries := StoreBlobs(store, agent, context, plain, nonce);
    if entries.Err? {
      return Err(entries.error);
    }
    ghost var mid := store.files;
    var treeHash := StoreObject(store, TreeObject(Tree(entries.value)));
    var fields := CommitFields(treeHash, parents, author, timestamp, message);
    r := SignAndStore(store, agent, fields);
    if r.Ok? {
      NewCommit(old(store.files), mid, store.files, agent.deks, context, entries.value, plain, fields,
                Signed(agent.identity.value, fields));
    }
  }

  lemma NewCommit(
    before: Files, mid: Files, files: Files, deks: map<string, KeyId>, context: string, entries: map<string, Hash>,
    plain: map<string, string>, fields: CommitFields, signature: Signature)
    requires Extends(before, mid) && Extends(mid, files) && Intact(files)
    requires signature.Signed? && signature.over == fields
    requires if context in deks then BlobsFor(mid, deks[context], entries, plain, SortedKeys(plain.Keys))
               else entries == map[]
    requires fields.treeHash == HashOf(TreeObject(Tree(entries)))
    requires Holds(files, fields.treeHash) && Holds(files, HashOf(CommitObject(Commit(fields, signature))))
    ensures var h := HashOf(CommitObject(Commit(fields, signature)));
            && (context in deks ==> Commits(files, deks[context], h, plain, fields.parentHashes, signature.signer))
            && ((forall p | p in fields.parentHashes :: Sound(before, p)) ==> Sound(files, h))
  {
    var h := HashOf(CommitObject(Commit(fields, signature)));
    if context in deks {
      NewCommitReads(files, deks, context, entries, plain, fields, signature);
    }
    if forall p | p in fields.parentHashes :: Sound(before, p) {
      assert EntriesOf(h) == entries && Parents(h) == fields.parentHashes;
      NewCommitIsSound(before, files, h);
    }
  }

  lemma NewCommitReads(
    files: Files, deks: map<string, KeyId>, context: string, entries: map<string, Hash>, plain: map<string, string>,
    fields: CommitFields, signature: Signature)
    requires context in deks && signature.Signed? && signature.over == fields
    requires BlobsFor(files, deks[context], entries, plain, SortedKeys(plain.Keys))
    requires fields.treeHash == HashOf(TreeObject(Tree(entries)))
    requires Holds(files, fields.treeHash) && Holds(files, HashOf(CommitObject(Commit(fields, signature))))
    ensures Commits(files, deks[context], HashOf(CommitObject(Commit(fields, signature))), plain, fields.parentHashes,
              signature.signer)
  {
    var h := HashOf(CommitObject(Commit(fields, signature)));
    assert EntriesOf(h) == entries;
    assert PlainOf(deks[context], entries) == plain;
  }

  /** A commit over stored blobs and sound parents has a sound history: a push may rely on it. */
  lemma NewCommitIsSound(before: Files, after: Files, h: Hash)
    requires Extends(before, after) && Intact(after)
    requires forall p | p in Parents(h) :: Sound(before, p)
    requires CommitFromBytes(h.bytes).Some? && h in after
    requires var t := CommitFromBytes(h.bytes).value.fields.treeHash; TreeFromBytes(t.bytes).Some? && t in after
    requires forall b | b in EntriesOf(h).Values :: b in after && BlobFromBytes(b.bytes).Some?
    ensures Sound(after, h)
  {
    forall c | c in Ancestors(h) && c != h ensures exists p :: p in Parents(h) && c in Ancestors(p) {}
    forall x | x in Reach(h) ensures Holds(after, x) {
      var c :| c in Ancestors(h) && x in Own(c);
      if c != h {
        var p :| p in Parents(h) && c in Ancestors(p);
        assert x in Reach(p);
        assert Holds(before, x);
      }
    }
  }
}
