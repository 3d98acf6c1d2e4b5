// Verified reads shared by log, diff and merge: load a commit or its tree, decrypt a blob,
// check a commit's signature.
module Vcs {
  import opened Wrappers
  import opened Crypto
  import opened Objects
  import opened History

  datatype VcsError =
    | BadObject(error: ObjectError)
    | Deserialize
    | DecryptionFailed
    | SignatureInvalid
    | CommitNotFound(hash: Hash)
    | TreeNotFound(hash: Hash)
    | BlobNotFound(hash: Hash)
    | NonCanonical(expected: Hash, recomputed: Hash)
    | BadSignatureLength(hash: Hash, length: nat)
    | UnknownSigner(author: PersonId)

  const SIGNATURE_LENGTH: nat := 64

  function LoadCommit(files: Files, hash: Hash): (r: Result<Commit, VcsError>)
    ensures r.Ok? ==> Holds(files, hash) && CommitFromBytes(hash.bytes) == Some(r.value)
    ensures r.Ok? <==>
              && Holds(files, hash) && hash.bytes.Encoded? && hash.bytes.item.CommitObject? && hash.bytes.form == 0
  {
    match Lookup(files, hash)
    case Err(e) => Err(BadObject(e))
    case Ok(None) => Err(CommitNotFound(hash))
    case Ok(Some(bytes)) =>
      match CommitFromBytes(bytes)
      case None => Err(Deserialize)
      case Some(commit) =>
        var recomputed := HashOf(CommitObject(commit));
        if recomputed != hash then Err(NonCanonical(hash, recomputed)) else Ok(commit)
  }

  function LoadTree(files: Files, treeHash: Hash): (r: Result<Tree, VcsError>)
    ensures r.Ok? <==> Holds(files, treeHash) && TreeFromBytes(treeHash.bytes).Some?
    ensures r.Ok? ==> TreeFromBytes(treeHash.bytes) == Some(r.value)
  {
    match Lookup(files, treeHash)
    case Err(e) => Err(BadObject(e))
    case Ok(None) => Err(TreeNotFound(treeHash))
    case Ok(Some(bytes)) =>
      match TreeFromBytes(bytes)
      case None => Err(Deserialize)
      case Some(tree) => Ok(tree)
  }

  function DecryptBlob(files: Files, key: KeyId, blobHash: Hash): (r: Result<string, VcsError>)
    ensures r.Ok? <==> Holds(files, blobHash) && Opens(key, blobHash).Some?
    ensures r.Ok? ==> Opens(key, blobHash) == Some(r.value)
  {
    match Lookup(files, blobHash)
    case Err(e) => Err(BadObject(e))
    case Ok(None) => Err(BlobNotFound(blobHash))
    case Ok(Some(bytes)) =>
      match BlobFromBytes(bytes)
      case None => Err(Deserialize)
      case Some(blob) =>
        match DecryptValue(key, blob.value)
        case None => Err(DecryptionFailed)
        case Some(plain) => Ok(plain)
  }

  /** The plaintext the blob behind `h` holds under `key`, if it opens. */
  function Opens(key: KeyId, h: Hash): Option<string> {
    match BlobFromBytes(h.bytes)
    case None => None
    case Some(blob) => DecryptValue(key, blob.value)
  }

  function VerifyCommitSignature(commit: Commit, hash: Hash, signer: PersonId): Result<(), VcsError> {
    match commit.signature
    case Signed(s, over) => if s == signer && over == commit.fields then Ok(()) else Err(SignatureInvalid)
    case Forged(length, _) =>
      if length != SIGNATURE_LENGTH then Err(BadSignatureLength(hash, length)) else Err(SignatureInvalid)
  }

  /** The tree entries of the commit behind `tip`. */
  function EntriesOf(tip: Hash): map<string, Hash> {
    match CommitFromBytes(tip.bytes)
    case Some(commit) => TreeEntries(commit.fields.treeHash)
    case None => map[]
  }

  function LoadTreeOfCommit(files: Files, commitHash: Hash): (r: Result<Tree, VcsError>)
    ensures r.Ok? <==>
              && Holds(files, commitHash) && CommitFromBytes(commitHash.bytes).Some? && commitHash.bytes.form == 0
              && (var t := CommitFromBytes(commitHash.bytes).value.fields.treeHash;
                  Holds(files, t) && TreeFromBytes(t.bytes).Some?)
    ensures r.Ok? ==> r.value.entries == EntriesOf(commitHash)
  {
    match LoadCommit(files, commitHash)
    case Err(e) => Err(e)
    case Ok(commit) => LoadTree(files, commit.fields.treeHash)
  }

  /** The commit behind `tip`, its tree and every blob of it are stored and open under `key`. */
  ghost predicate Readable(files: Files, key: KeyId, tip: Hash) {
    && Holds(files, tip) && CommitFromBytes(tip.bytes).Some?
    && (var t := CommitFromBytes(tip.bytes).value.fields.treeHash; Holds(files, t) && TreeFromBytes(t.bytes).Some?)
    && BlobsOpen(files, key, EntriesOf(tip))
  }

  ghost predicate BlobsOpen(files: Files, key: KeyId, entries: map<string, Hash>) {
    forall k | k in entries :: Holds(files, entries[k]) && Opens(key, entries[k]).Some?
  }

  /** What a tree says in plaintext: the keys whose blobs open, with what they hold. */
  ghost function PlainOf(key: KeyId, entries: map<string, Hash>): map<string, string> {
    map k | k in entries && Opens(key, entries[k]).Some? :: Opens(key, entries[k]).value
  }
}
