// The persisted local state (branch tips, hash-only staging, paused merges), the invariant that
// ties it to the object store and the agent's keys, and what it means in plaintext.
module LocalState {
  import opened Wrappers
  import opened Crypto
  import opened Objects
  import opened Vcs
  import opened ThreeWay
  import opened Push

  datatype StagedEntry = Set(hash: Hash) | Unset

  datatype ForkedFrom = ForkedFrom(branch: string, root: Hash)

  datatype ConflictHashes = ConflictHashes(ours: Option<Hash>, theirs: Option<Hash>)

  datatype ResolvedEntry = Settled(hash: Hash) | Delete

  datatype MergeState = MergeState(
    branch: string, oursTip: Hash, theirsTip: Hash, base: Option<Hash>,
    resolved: map<string, ResolvedEntry>, conflicts: map<string, ConflictHashes>)

  datatype BranchState = BranchState(
    dekVersion: nat, tip: Option<Hash>, forkedFrom: Option<ForkedFrom>,
    staged: map<string, StagedEntry>, merge: Option<MergeState>)

  type Branches = map<string, BranchState>

  type Deks = map<string, KeyId>

  const NEW_BRANCH := BranchState(0, None, None, map[], None)

  /** A branch's state, or that of a branch never heard of. */
  function StateOf(branches: Branches, b: string): BranchState {
    if b in branches then branches[b] else NEW_BRANCH
  }

  function KeyOf(deks: Deks, b: string): KeyId {
    if b in deks then deks[b] else 0
  }

  /** The base commit for merging `theirs` into `ours`, and the branch whose key opens it: the root
      of whichever side was forked from the other. */
  function MergeBaseAndCipher(branches: Branches, ours: string, theirs: string): (Option<Hash>, string) {
    var o, t := StateOf(branches, ours).forkedFrom, StateOf(branches, theirs).forkedFrom;
    if t.Some? && t.value.branch == ours then (Some(t.value.root), theirs)
    else if o.Some? && o.value.branch == theirs then (Some(o.value.root), ours)
    else (None, ours)
  }

  /** What follows the last slash of a branch key. */
  function ShortName(key: string): string {
    if '/' in key then ShortName(key[1..]) else key
  }

  lemma {:induction false} ShortNameIs(path: string, name: string)
    requires '/' !in name
    ensures ShortName(name) == name && ShortName(path + "/" + name) == name
    decreases |path|
  {
    var key := path + "/" + name;
    assert key[|path|] == '/';
    if path == "" {
      assert key[1..] == name;
    } else {
      assert key[1..] == path[1..] + "/" + name;
      ShortNameIs(path[1..], name);
    }
  }

  /** Messages name a branch by what follows the last slash of its key. */
  lemma MessagesAre(path: string, name: string)
    requires '/' !in name
    ensures ForkMessage(path + "/" + name) == "fork from '" + name + "'"
    ensures MergeMessage(path + "/" + name) == "Merge branch '" + name + "'"
  {
    ShortNameIs(path, name);
  }

  function ForkMessage(source: string): string {
    "fork from '" + ShortName(source) + "'"
  }

  function MergeMessage(theirs: string): string {
    "Merge branch '" + ShortName(theirs) + "'"
  }

  // ---- Meaning in plaintext ---------------------------------------------------------------------

  datatype PlainMerge = PlainMerge(
    theirsBranch: string, base: Plain, ours: Plain, theirs: Plain,
    resolved: map<string, Option<string>>, open: set<string>)

  datatype PlainFork = PlainFork(branch: string, root: Plain)

  /** A branch as its user sees it: the committed map, the pending edits, the values it was forked
      with, the paused merge. */
  datatype PlainBranch = PlainBranch(
    committed: Plain, edits: map<string, Option<string>>, fork: Option<PlainFork>, merge: Option<PlainMerge>)

  type PlainState = map<string, PlainBranch>

  const NEW_PLAIN_BRANCH := PlainBranch(map[], map[], None, None)

  function PlainStateOf(s: PlainState, b: string): PlainBranch {
    if b in s then s[b] else NEW_PLAIN_BRANCH
  }

  ghost function View(p: PlainBranch): Plain {
    Patch(p.edits, p.committed)
  }

  ghost function PlainTip(key: KeyId, tip: Option<Hash>): Plain {
    if tip.Some? then PlainOf(key, EntriesOf(tip.value)) else map[]
  }

  ghost function PlainStaged(key: KeyId, e: StagedEntry): Option<string> {
    if e.Set? then Opens(key, e.hash) else None
  }

  ghost function PlainEdits(key: KeyId, staged: map<string, StagedEntry>): map<string, Option<string>> {
    map k | k in staged :: PlainStaged(key, staged[k])
  }

  ghost function PlainAnswer(key: KeyId, e: ResolvedEntry): Option<string> {
    if e.Settled? then Opens(key, e.hash) else None
  }

  ghost function PlainResolved(key: KeyId, resolved: map<string, ResolvedEntry>): map<string, Option<string>> {
    map k | k in resolved :: PlainAnswer(key, resolved[k])
  }

  ghost function PlainBase(deks: Deks, branches: Branches, ours: string, theirs: string): Plain {
    var (base, cipher) := MergeBaseAndCipher(branches, ours, theirs);
    PlainTip(KeyOf(deks, cipher), base)
  }

  ghost function PlainMergeOf(deks: Deks, branches: Branches, b: string, ms: MergeState): PlainMerge {
    PlainMerge(
      ms.branch, PlainBase(deks, branches, b, ms.branch),
      PlainTip(KeyOf(deks, b), Some(ms.oursTip)), PlainTip(KeyOf(deks, ms.branch), Some(ms.theirsTip)),
      PlainResolved(KeyOf(deks, b), ms.resolved), ms.conflicts.Keys)
  }

  ghost function PlainBranchOf(deks: Deks, branches: Branches, b: string): PlainBranch {
    var bs, key := StateOf(branches, b), KeyOf(deks, b);
    PlainBranch(
      PlainTip(key, bs.tip), PlainEdits(key, bs.staged),
      if bs.forkedFrom.Some?
      then Some(PlainFork(bs.forkedFrom.value.branch, PlainTip(key, Some(bs.forkedFrom.value.root))))
      else None,
      if bs.merge.Some? then Some(PlainMergeOf(deks, branches, b, bs.merge.value)) else None)
  }

  ghost function Meaning(deks: Deks, branches: Branches): PlainState {
    map b | b in branches :: PlainBranchOf(deks, branches, b)
  }

  /** The merge base in plaintext: the values the forked side started from. */
  ghost function ForkBase(s: PlainState, ours: string, theirs: string): Plain {
    var o, t := PlainStateOf(s, ours).fork, PlainStateOf(s, theirs).fork;
    if t.Some? && t.value.branch == ours then t.value.root
    else if o.Some? && o.value.branch == theirs then o.value.root
    else map[]
  }

  lemma BaseIsForkBase(deks: Deks, branches: Branches, ours: string, theirs: string)
    ensures PlainBase(deks, branches, ours, theirs) == ForkBase(Meaning(deks, branches), ours, theirs)
  {}

  // ---- The invariant ----------------------------------------------------------------------------

  /** A tip of branch `b`: readable under the branch's key and, for a push, soundly stored. */
  ghost predicate TipOk(files: Files, deks: Deks, b: string, tip: Hash) {
    b in deks && Readable(files, deks[b], tip) && Sound(files, tip)
  }

  ghost predicate BlobOk(files: Files, deks: Deks, b: string, h: Hash) {
    b in deks && Holds(files, h) && Opens(deks[b], h).Some?
  }

  function HashAt(entries: map<string, Hash>, k: string): Option<Hash> {
    if k in entries then Some(entries[k]) else None
  }

  /** The commits a paused merge will be finished from. */
  ghost predicate MergeTipsOk(
    files: Files, deks: Deks, branches: Branches, b: string, theirs: string, oursTip: Hash, theirsTip: Hash,
    base: Option<Hash>)
  {
    && theirs in branches
    && TipOk(files, deks, b, oursTip) && TipOk(files, deks, theirs, theirsTip)
    && base == MergeBaseAndCipher(branches, b, theirs).0
  }

  /** Open keys carry the two tips' hashes; answered ones a blob under the branch's own key. */
  ghost predicate MergeEntriesOk(files: Files, deks: Deks, b: string, ms: MergeState) {
    && (forall k | k in ms.conflicts :: ms.conflicts[k] ==
          ConflictHashes(HashAt(EntriesOf(ms.oursTip), k), HashAt(EntriesOf(ms.theirsTip), k)))
    && (forall k | k in ms.resolved && ms.resolved[k].Settled? :: BlobOk(files, deks, b, ms.resolved[k].hash))
  }

  ghost predicate MergeOk(files: Files, deks: Deks, branches: Branches, b: string, ms: MergeState) {
    && MergeTipsOk(files, deks, branches, b, ms.branch, ms.oursTip, ms.theirsTip, ms.base)
    && MergeEntriesOk(files, deks, b, ms)
    && PartitionsConflicts(PlainMergeOf(deks, branches, b, ms))
  }

  /** Answered and open conflicts are disjoint and together are the conflicts of the merge. */
  ghost predicate PartitionsConflicts(pm: PlainMerge) {
    pm.resolved.Keys !! pm.open && pm.resolved.Keys + pm.open == Conflicts(pm.base, pm.ours, pm.theirs)
  }

  ghost predicate BranchOk(files: Files, deks: Deks, branches: Branches, b: string) {
    var bs := StateOf(branches, b);
    && (bs.tip.Some? ==> TipOk(files, deks, b, bs.tip.value))
    && (bs.forkedFrom.Some? ==> TipOk(files, deks, b, bs.forkedFrom.value.root))
    && (forall k | k in bs.staged && bs.staged[k].Set? :: BlobOk(files, deks, b, bs.staged[k].hash))
    && (bs.merge.Some? ==> MergeOk(files, deks, branches, b, bs.merge.value))
  }

  ghost predicate StateOk(files: Files, deks: Deks, branches: Branches) {
    Intact(files) && forall b | b in branches :: BranchOk(files, deks, branches, b)
  }

  // ---- What other operations leave alone --------------------------------------------------------

  /** The store grew, keys of known branches stayed, and known branches kept their fork records. */
  ghost predicate Grew(
    files: Files, deks: Deks, branches: Branches, files': Files, deks': Deks, branches': Branches)
  {
    && Extends(files, files')
    && (forall b | b in branches && b in deks :: b in deks' && deks'[b] == deks[b])
    && (forall b | b in branches && b !in deks :: b !in deks')
    && (forall b | b in branches :: b in branches' && branches'[b].forkedFrom == branches[b].forkedFrom)
  }

  lemma TipOkMonotone(files: Files, deks: Deks, files': Files, deks': Deks, b: string, tip: Hash)
    requires Extends(files, files') && TipOk(files, deks, b, tip) && b in deks' && deks'[b] == deks[b]
    ensures TipOk(files', deks', b, tip)
  {}

  lemma PausedMergeUntouched(
    files: Files, deks: Deks, branches: Branches, files': Files, deks': Deks, branches': Branches, b: string,
    ms: MergeState)
    requires Grew(files, deks, branches, files', deks', branches')
    requires b in branches && MergeOk(files, deks, branches, b, ms)
    ensures MergeOk(files', deks', branches', b, ms)
    ensures PlainMergeOf(deks', branches', b, ms) == PlainMergeOf(deks, branches, b, ms)
  {
    TipOkMonotone(files, deks, files', deks', b, ms.oursTip);
    TipOkMonotone(files, deks, files', deks', ms.branch, ms.theirsTip);
    assert MergeBaseAndCipher(branches', b, ms.branch) == MergeBaseAndCipher(branches, b, ms.branch);
  }

  /** A branch whose own record did not change keeps its invariant and its meaning. */
  lemma BranchUntouched(
    files: Files, deks: Deks, branches: Branches, files': Files, deks': Deks, branches': Branches, b: string)
    requires Grew(files, deks, branches, files', deks', branches')
    requires b in branches && BranchOk(files, deks, branches, b) && branches'[b] == branches[b]
    ensures BranchOk(files', deks', branches', b)
    ensures PlainBranchOf(deks', branches', b) == PlainBranchOf(deks, branches, b)
  {
    var bs := branches[b];
    if bs.tip.Some? { TipOkMonotone(files, deks, files', deks', b, bs.tip.value); }
    if bs.forkedFrom.Some? { TipOkMonotone(files, deks, files', deks', b, bs.forkedFrom.value.root); }
    if bs.merge.Some? { PausedMergeUntouched(files, deks, branches, files', deks', branches', b, bs.merge.value); }
  }

  lemma SameElsewhere(deks: Deks, branches: Branches, deks': Deks, branches': Branches, b: string)
    requires branches'.Keys == branches.Keys + {b}
    requires forall c | c in branches && c != b ::
               PlainBranchOf(deks', branches', c) == PlainBranchOf(deks, branches, c)
    ensures Meaning(deks', branches') == Meaning(deks, branches)[b := PlainBranchOf(deks', branches', b)]
  {}

  /** One branch's record changed: the invariant and the meaning change at that branch only. */
  lemma OneBranchChanged(
    files: Files, deks: Deks, branches: Branches, files': Files, deks': Deks, branches': Branches, b: string)
    requires StateOk(files, deks, branches) && Intact(files')
    requires Grew(files, deks, branches, files', deks', branches')
    requires branches' == branches[b := StateOf(branches', b)]
    requires BranchOk(files', deks', branches', b)
    ensures StateOk(files', deks', branches')
    ensures Meaning(deks', branches') == Meaning(deks, branches)[b := PlainBranchOf(deks', branches', b)]
  {
    forall c | c in branches && c != b
      ensures BranchOk(files', deks', branches', c)
      ensures PlainBranchOf(deks', branches', c) == PlainBranchOf(deks, branches, c)
    {
      BranchUntouched(files, deks, branches, files', deks', branches', c);
    }
    SameElsewhere(deks, branches, deks', branches', b);
  }
}
