// Content-addressed objects. A `Hash` is an injective wrapper of the hashed bytes (perfect
// hashing), and bytes are either the encoding of one object, in the canonical form that
// `to_bytes` writes (form 0) or in another form the parser also accepts, or junk that no parser
// accepts. Code learns what a hash stands for only by reading a store.
module Objects {
  import opened Wrappers
  import opened Crypto

  datatype Blob = Blob(value: EncryptedValue)

  datatype Tree = Tree(entries: map<string, Hash>)

  datatype CommitFields = CommitFields(
    treeHash: Hash, parentHashes: seq<Hash>, authorId: PersonId, timestamp: int, message: string)

  /** `Signed` is an Ed25519 signature made by `signer` over `over`; `Forged` is any other string of bytes. */
  datatype Signature = Signed(signer: PersonId, over: CommitFields) | Forged(length: nat, tag: nat)

  datatype Commit = Commit(fields: CommitFields, signature: Signature)

  datatype Object = BlobObject(blob: Blob) | TreeObject(tree: Tree) | CommitObject(commit: Commit)

  datatype Bytes = Encoded(item: Object, form: nat) | Junk(tag: nat)

  datatype Hash = Of(bytes: Bytes)

  type Files = map<Hash, Bytes>

  function ToBytes(item: Object): Bytes {
    Encoded(item, 0)
  }

  function HashOf(item: Object): Hash {
    Of(ToBytes(item))
  }

  function CommitFromBytes(bytes: Bytes): Option<Commit> {
    if bytes.Encoded? && bytes.item.CommitObject? then Some(bytes.item.commit) else None
  }

  function TreeFromBytes(bytes: Bytes): Option<Tree> {
    if bytes.Encoded? && bytes.item.TreeObject? then Some(bytes.item.tree) else None
  }

  function BlobFromBytes(bytes: Bytes): Option<Blob> {
    if bytes.Encoded? && bytes.item.BlobObject? then Some(bytes.item.blob) else None
  }

  datatype ObjectError = HashMismatch(expected: Hash, actual: Hash)

  /** A verified read: absent, or the very bytes the hash was computed from, or a reported mismatch. */
  function Lookup(files: Files, hash: Hash): (r: Result<Option<Bytes>, ObjectError>)
    ensures r == Ok(None) <==> hash !in files
    ensures r.Ok? && r.value.Some? ==> r.value.value == hash.bytes
    ensures r.Ok? && r.value.Some? <==> Holds(files, hash)
  {
    if hash !in files then Ok(None)
    else if Of(files[hash]) != hash then Err(HashMismatch(hash, Of(files[hash])))
    else Ok(Some(files[hash]))
  }

  /** `hash` is stored and its file is not corrupted. */
  predicate Holds(files: Files, hash: Hash) {
    hash in files && files[hash] == hash.bytes
  }

  /** Every file in the store is uncorrupted. */
  ghost predicate Intact(files: Files) {
    forall h | h in files :: files[h] == h.bytes
  }

  /** `after` is `before` with possibly more objects; no file was changed or removed. */
  ghost predicate Extends(before: Files, after: Files) {
    forall h | h in before :: h in after && after[h] == before[h]
  }

  /** The on-disk object store: `files` may have been tampered with between operations. */
  class LocalObjectStore {
    var files: Files

    constructor Open()
      ensures files == map[]
    {
      files := map[];
    }

    method Put(hash: Hash, bytes: Bytes) returns (r: Result<(), ObjectError>)
      modifies this
      ensures r.Ok? <==> Of(bytes) == hash
      ensures files == if r.Ok? then old(files)[hash := bytes] else old(files)
    {
      var computed := Of(bytes);
      if computed != hash {
        return Err(HashMismatch(hash, computed));
      }
      files := files[hash := bytes];
      return Ok(());
    }

    function Get(hash: Hash): Result<Option<Bytes>, ObjectError>
      reads this
    {
      Lookup(files, hash)
    }

    predicate Contains(hash: Hash)
      reads this
    {
      hash in files
    }
  }
}
