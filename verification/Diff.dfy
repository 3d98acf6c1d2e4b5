// Key-level diff of two commits: equal blob hashes are skipped, unequal ones are decrypted and
// compared as plaintext.
module Diff {
  import opened Wrappers
  import opened Crypto
  import opened KeyOrder
  import opened Objects
  import opened Vcs

  datatype DiffEntry = Added(key: string) | Removed(key: string) | Changed(key: string)

  function Keys(entries: seq<DiffEntry>): (keys: seq<string>)
    ensures |keys| == |entries| && forall i | 0 <= i < |keys| :: keys[i] == entries[i].key
  {
    if entries == [] then [] else [entries[0].key] + Keys(entries[1..])
  }

  /** What an entry claims of two key/value maps. */
  ghost predicate Differs(from: map<string, string>, to: map<string, string>, e: DiffEntry) {
    match e
    case Added(k) => k in to && k !in from
    case Removed(k) => k in from && k !in to
    case Changed(k) => k in from && k in to && from[k] != to[k]
  }

  /** `entries` is the plaintext difference between two key/value maps, in increasing key order. */
  ghost predicate IsPlainDiff(from: map<string, string>, to: map<string, string>, entries: seq<DiffEntry>) {
    && Increasing(Keys(entries))
    && forall e :: e in entries <==> Differs(from, to, e)
  }

  /** A key whose two blobs must be decrypted to be compared. */
  predicate MustDecrypt(from: map<string, Hash>, to: map<string, Hash>, k: string) {
    k in from && k in to && from[k] != to[k]
  }

  ghost predicate Comparable(files: Files, dek: KeyId, from: map<string, Hash>, to: map<string, Hash>, k: string) {
    MustDecrypt(from, to, k) ==> DecryptBlob(files, dek, from[k]).Ok? && DecryptBlob(files, dek, to[k]).Ok?
  }

  /** The entry the walk emits for one key, given that what it must decrypt does decrypt. */
  ghost function EntryFor(dek: KeyId, from: map<string, Hash>, to: map<string, Hash>, k: string): Option<DiffEntry> {
    if k !in from && k in to then Some(Added(k))
    else if k in from && k !in to then Some(Removed(k))
    else if MustDecrypt(from, to, k) && Opens(dek, from[k]) != Opens(dek, to[k]) then Some(Changed(k))
    else None
  }

  ghost predicate Emitted(
    dek: KeyId, from: map<string, Hash>, to: map<string, Hash>, keys: seq<string>, entries: seq<DiffEntry>)
  {
    && Increasing(Keys(entries))
    && (forall e | e in entries :: e.key in keys && EntryFor(dek, from, to, e.key) == Some(e))
    && (forall k | k in keys && EntryFor(dek, from, to, k).Some? :: EntryFor(dek, from, to, k).value in entries)
  }

  lemma EmitNext(
    dek: KeyId, from: map<string, Hash>, to: map<string, Hash>, keys: seq<string>, n: nat,
    entries: seq<DiffEntry>, entry: Option<DiffEntry>)
    requires Increasing(keys) && n < |keys| && Emitted(dek, from, to, keys[..n], entries)
    requires EntryFor(dek, from, to, keys[n]) == entry
    ensures Emitted(dek, from, to, keys[..n + 1], entries + if entry.Some? then [entry.value] else [])
  {}

  method DiffCommits(store: LocalObjectStore, dek: KeyId, from: Option<Hash>, to: Hash)
    returns (r: Result<seq<DiffEntry>, VcsError>)
    ensures var loaded := LoadTreeOfCommit(store.files, to).Ok?
              && (from.None? || LoadTreeOfCommit(store.files, from.value).Ok?);
            var old', new' := if from.None? then map[] else EntriesOf(from.value), EntriesOf(to);
            && (r.Ok? <==>
                  loaded && forall k | MustDecrypt(old', new', k) :: Comparable(store.files, dek, old', new', k))
            && (r.Ok? ==> Emitted(dek, old', new', SortedKeys(old'.Keys + new'.Keys), r.value))
  {
    var fromEntries: map<string, Hash> := map[];
    if from.Some? {
      var tree := LoadTreeOfCommit(store.files, from.value);
      if tree.Err? {
        return Err(tree.error);
      }
      fromEntries := tree.value.entries;
    }
    var toTree := LoadTreeOfCommit(store.files, to);
    if toTree.Err? {
      return Err(toTree.error);
    }
    r := DiffTrees(store, dek, fromEntries, toTree.value.entries);
  }

  /** One key of the union: equal hashes are unchanged without a look inside. */
  method DiffKey(store: LocalObjectStore, dek: KeyId, from: map<string, Hash>, to: map<string, Hash>, key: string)
    returns (r: Result<Option<DiffEntry>, VcsError>)
    requires key in from || key in to
    ensures r.Ok? <==> Comparable(store.files, dek, from, to, key)
    ensures r.Ok? ==> r.value == EntryFor(dek, from, to, key)
  {
    if key !in from {
      return Ok(Some(Added(key)));
    }
    if key !in to {
      return Ok(Some(Removed(key)));
    }
    if from[key] == to[key] {
      return Ok(None);
    }
    var fromPlain := DecryptBlob(store.files, dek, from[key]);
    if fromPlain.Err? {
      return Err(fromPlain.error);
    }
    var toPlain := DecryptBlob(store.files, dek, to[key]);
    if toPlain.Err? {
      return Err(toPlain.error);
    }
    return Ok(if fromPlain.value != toPlain.value then Some(Changed(key)) else None);
  }

  method DiffTrees(store: LocalObjectStore, dek: KeyId, from: map<string, Hash>, to: map<string, Hash>)
    returns (r: Result<seq<DiffEntry>, VcsError>)
    ensures r.Ok? <==> forall k | MustDecrypt(from, to, k) :: Comparable(store.files, dek, from, to, k)
    ensures r.Ok? ==> Emitted(dek, from, to, SortedKeys(from.Keys + to.Keys), r.value)
  {
    var keys := SortedKeys(from.Keys + to.Keys);
    var entries: seq<DiffEntry> := [];
    for i := 0 to |keys|
      invariant Emitted(dek, from, to, keys[..i], entries)
      invariant forall j | 0 <= j < i :: Comparable(store.files, dek, from, to, keys[j])
    {
      assert keys[i] in keys;
      var entry := DiffKey(store, dek, from, to, keys[i]);
      if entry.Err? {
        return Err(entry.error);
      }
      EmitNext(dek, from, to, keys, i, entries, entry.value);
      entries := entries + if entry.value.Some? then [entry.value.value] else [];
    }
    assert keys[..|keys|] == keys;
    forall k | MustDecrypt(from, to, k) ensures Comparable(store.files, dek, from, to, k) {
      assert k in keys;
    }
    return Ok(entries);
  }

  /** The fast path agrees with decrypting everything: when all blobs of both trees open, what is
      emitted is exactly the plaintext difference. In particular a value that was only encrypted
      again is never reported. */
  lemma FastPathIsPlainDiff(
    files: Files, dek: KeyId, from: map<string, Hash>, to: map<string, Hash>, keys: seq<string>,
    entries: seq<DiffEntry>)
    requires BlobsOpen(files, dek, from) && BlobsOpen(files, dek, to)
    requires forall k :: k in keys <==> k in from || k in to
    requires Emitted(dek, from, to, keys, entries)
    ensures IsPlainDiff(PlainOf(dek, from), PlainOf(dek, to), entries)
  {
    forall e: DiffEntry ensures e in entries <==> Differs(PlainOf(dek, from), PlainOf(dek, to), e) {
      EntryIsPlain(files, dek, from, to, e);
    }
  }

  lemma EntryIsPlain(files: Files, dek: KeyId, from: map<string, Hash>, to: map<string, Hash>, e: DiffEntry)
    requires BlobsOpen(files, dek, from) && BlobsOpen(files, dek, to)
    ensures EntryFor(dek, from, to, e.key) == Some(e) <==> Differs(PlainOf(dek, from), PlainOf(dek, to), e)
    ensures Differs(PlainOf(dek, from), PlainOf(dek, to), e) ==> e.key in from || e.key in to
  {}

  /** Two plaintext differences of the same maps are the same list. */
  lemma PlainDiffUnique(from: map<string, string>, to: map<string, string>, a: seq<DiffEntry>, b: seq<DiffEntry>)
    requires IsPlainDiff(from, to, a) && IsPlainDiff(from, to, b)
    ensures a == b
  {
    var keys := set e | e in a :: e.key;
    KeysAre(a, keys);
    forall k ensures k in keys <==> exists e | e in b :: e.key == k {}
    KeysAre(b, keys);
    SortedUnique(Keys(a), keys);
    SortedUnique(Keys(b), keys);
    assert |a| == |b|;
    forall i | 0 <= i < |a| ensures a[i] == b[i] {
      assert Keys(a)[i] == Keys(b)[i];
      assert a[i] in a && b[i] in b;
      assert a[i] in b;
    }
  }

  lemma KeysAre(entries: seq<DiffEntry>, keys: set<string>)
    requires forall k :: k in keys <==> exists e | e in entries :: e.key == k
    ensures forall k :: k in Keys(entries) <==> k in keys
  {}
}
