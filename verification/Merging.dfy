// Merging another branch, under its own key, into the current one: resolve what the three-way rule
// leaves open at the prompt, save after every answer, commit once nothing is open.
module Merging {
  import opened Wrappers
  import opened Crypto
  import opened KeyOrder
  import opened Objects
  import opened History
  import opened Vcs
  import opened ThreeWay
  import opened Push
  import opened CommitBuilder
  import opened LocalState
  import opened MergeSession
  import opened MergeSummary
  import opened Workspace

  lemma GetPlain(key: KeyId, entries: map<string, Hash>, k: string)
    ensures Get(PlainOf(key, entries), k) == if k in entries then Opens(key, entries[k]) else None
  {}

  function Move(ms: MergeState, k: string, entry: ResolvedEntry): MergeState {
    ms.(conflicts := ms.conflicts - {k}, resolved := ms.resolved[k := entry])
  }

  lemma MovedInPlain(deks: Deks, branches: Branches, b: string, ms: MergeState, answer: Answer, entry: ResolvedEntry)
    requires ms.conflicts != map[]
    requires var k, pm := First(ms.conflicts.Keys), PlainMergeOf(deks, branches, b, ms);
             PlainAnswer(KeyOf(deks, b), entry) == Chosen(answer, Get(pm.ours, k), Get(pm.theirs, k))
    ensures PlainMergeOf(deks, branches, b, Move(ms, First(ms.conflicts.Keys), entry)) ==
            Settle(PlainMergeOf(deks, branches, b, ms), answer)
  {
    ResolvedMore(KeyOf(deks, b), ms.resolved, First(ms.conflicts.Keys), entry);
    ConflictsFewer(ms.conflicts, First(ms.conflicts.Keys));
  }

  lemma ResolvedMore(key: KeyId, resolved: map<string, ResolvedEntry>, k: string, entry: ResolvedEntry)
    ensures PlainResolved(key, resolved[k := entry]) == PlainResolved(key, resolved)[k := PlainAnswer(key, entry)]
  {}

  lemma ConflictsFewer(conflicts: map<string, ConflictHashes>, k: string)
    ensures (conflicts - {k}).Keys == conflicts.Keys - {k}
  {}

  /** Moving the first open key to the answered ones is settling it. */
  lemma SettledInPlain(
    files: Files, deks: Deks, branches: Branches, b: string, ms: MergeState, answer: Answer, entry: ResolvedEntry)
    requires b in branches && MergeOk(files, deks, branches, b, ms) && ms.conflicts != map[]
    requires entry.Settled? ==> BlobOk(files, deks, b, entry.hash)
    requires var k, pm := First(ms.conflicts.Keys), PlainMergeOf(deks, branches, b, ms);
             PlainAnswer(KeyOf(deks, b), entry) == Chosen(answer, Get(pm.ours, k), Get(pm.theirs, k))
    ensures var ms' := Move(ms, First(ms.conflicts.Keys), entry);
            && PlainMergeOf(deks, branches, b, ms') == Settle(PlainMergeOf(deks, branches, b, ms), answer)
            && MergeOk(files, deks, branches, b, ms')
  {
    MovedInPlain(deks, branches, b, ms, answer, entry);
    SettleKeepsPartition(PlainMergeOf(deks, branches, b, ms), answer);
    MovedEntriesOk(files, deks, b, ms, First(ms.conflicts.Keys), entry);
  }

  lemma MovedEntriesOk(files: Files, deks: Deks, b: string, ms: MergeState, k: string, entry: ResolvedEntry)
    requires MergeEntriesOk(files, deks, b, ms)
    requires entry.Settled? ==> BlobOk(files, deks, b, entry.hash)
    ensures MergeEntriesOk(files, deks, b, Move(ms, k, entry))
  {}

  lemma SettleKeepsPartition(pm: PlainMerge, answer: Answer)
    requires PartitionsConflicts(pm) && pm.open != {}
    ensures PartitionsConflicts(Settle(pm, answer))
  {}

  /** Saving a merge state changes the branch's paused merge and nothing else. */
  lemma MergeSaved(files: Files, deks: Deks, branches: Branches, files': Files, b: string, ms: MergeState)
    requires StateOk(files, deks, branches) && Intact(files') && Extends(files, files')
    requires b in branches && MergeOk(files', deks, branches, b, ms)
    ensures var branches' := branches[b := branches[b].(merge := Some(ms))];
            && StateOk(files', deks, branches')
            && MergeOk(files', deks, branches', b, ms)
            && PlainMergeOf(deks, branches', b, ms) == PlainMergeOf(deks, branches, b, ms)
            && Meaning(deks, branches') == Meaning(deks, branches)[b :=
                 Meaning(deks, branches)[b].(merge := Some(PlainMergeOf(deks, branches, b, ms)))]
  {
    var branches' := branches[b := branches[b].(merge := Some(ms))];
    PausedMergeUntouched(files', deks, branches, files', deks, branches', b, ms);
    BranchUntouched(files, deks, branches, files', deks, branches, b);
    OneBranchChanged(files, deks, branches, files', deks, branches', b);
  }

  /** A side's value at one key, decrypted for display under that side's own key. */
  method ShowSide(w: Workspace, context: string, tip: Hash, key: string, h: Option<Hash>)
    returns (shown: Option<string>)
    requires w.Valid() && w.Ready(context) && TipOk(w.store.files, w.known, context, tip)
               && h == HashAt(EntriesOf(tip), key)
    modifies w.agent
    ensures w.agent.State() == old(w.agent.State())
    ensures shown == Get(PlainOf(w.known[context], EntriesOf(tip)), key)
  {
    if h.None? {
      return None;
    }
    var plain := DecryptStored(w.store, w.agent, context, h.value);
    assert plain.Ok?;
    return Some(plain.value);
  }

  /** One prompt: show both sides, take the answer, make the entry that records it. Their value is
      encrypted again under the current branch's key; ours is reused as it is. */
  method RecordAnswer(w: Workspace, b: string, ms: MergeState, key: string, answer: Answer)
    returns (entry: ResolvedEntry)
    requires w.Valid() && w.Ready(b) && w.Ready(ms.branch)
    requires b in w.branches && MergeOk(w.store.files, w.known, w.branches, b, ms)
    requires key in ms.conflicts && !answer.Skip?
    modifies w`drawn, w.store, w.agent
    ensures w.Valid() && w.agent.State() == old(w.agent.State()) && Extends(old(w.store.files), w.store.files)
    ensures entry.Settled? ==> BlobOk(w.store.files, w.known, b, entry.hash)
    ensures var pm := PlainMergeOf(w.known, w.branches, b, ms);
            PlainAnswer(w.known[b], entry) == Chosen(answer, Get(pm.ours, key), Get(pm.theirs, key))
  {
    var hashes := ms.conflicts[key];
    var oursPlain := ShowSide(w, b, ms.oursTip, key, hashes.ours);
    var theirsPlain := ShowSide(w, ms.branch, ms.theirsTip, key, hashes.theirs);
    if answer.Ours? {
      GetPlain(w.known[b], EntriesOf(ms.oursTip), key);
      return if hashes.ours.Some? then Settled(hashes.ours.value) else Delete;
    }
    var text := if answer.Theirs? then theirsPlain else Some(answer.text);
    if text.None? {
      return Delete;
    }
    var blobHash := EncryptAndStore(w.store, w.agent, b, text.value, w.drawn);
    assert blobHash.Ok?;
    w.drawn := w.drawn + 1;
    StoreGrew(old(w.store.files), w.known, w.branches, w.store.files);
    return Settled(blobHash.value);
  }

  /** The paused merge of a branch as its user sees it. */
  ghost function MergeOf(s: PlainState, b: string): PlainMerge
    requires b in s && s[b].merge.Some?
  {
    s[b].merge.value
  }

  ghost function WithMerge(s: PlainState, b: string, pm: PlainMerge): PlainState
    requires b in s
  {
    s[b := s[b].(merge := Some(pm))]
  }

  /** What is open and with whom can be read off the saved state. */
  lemma OpenIs(deks: Deks, branches: Branches, b: string)
    requires b in branches && branches[b].merge.Some?
    ensures var pm, ms := MergeOf(Meaning(deks, branches), b), branches[b].merge.value;
            pm == PlainMergeOf(deks, branches, b, ms) && pm.open == ms.conflicts.Keys && pm.theirsBranch == ms.branch
  {}

  /** A saved merge is a proper merge state. */
  lemma SavedMergeOk(files: Files, deks: Deks, branches: Branches, b: string, ms: MergeState)
    requires StateOk(files, deks, branches) && b in branches && branches[b].merge == Some(ms)
    ensures MergeOk(files, deks, branches, b, ms)
  {
    assert BranchOk(files, deks, branches, b);
  }

  /** Move the first open key to the answered ones; nothing is saved yet. */
  method SettleOne(w: Workspace, b: string, ms0: MergeState, key: string, answer: Answer) returns (ms: MergeState)
    requires w.Valid() && w.Ready(b) && w.Ready(ms0.branch) && b in w.branches && w.branches[b].merge == Some(ms0)
    requires ms0.conflicts != map[] && key == First(ms0.conflicts.Keys) && !answer.Skip?
    modifies w`drawn, w.store, w.agent
    ensures w.Valid() && w.agent.State() == old(w.agent.State()) && Extends(old(w.store.files), w.store.files)
    ensures ms == ms0.(resolved := ms.resolved, conflicts := ms0.conflicts - {key})
    ensures MergeOk(w.store.files, w.known, w.branches, b, ms)
    ensures PlainMergeOf(w.known, w.branches, b, ms) == Settle(PlainMergeOf(w.known, w.branches, b, ms0), answer)
  {
    SavedMergeOk(w.store.files, w.known, w.branches, b, ms0);
    var entry := RecordAnswer(w, b, ms0, key, answer);
    SavedMergeOk(w.store.files, w.known, w.branches, b, ms0);
    SettledInPlain(w.store.files, w.known, w.branches, b, ms0, answer, entry);
    return Move(ms0, key, entry);
  }

  /** One turn of the prompt loop: record the answer to the first open key and save. */
  method AnswerOne(w: Workspace, b: string, ms0: MergeState, key: string, answer: Answer) returns (ms: MergeState)
    requires w.Valid() && w.Ready(b) && w.Ready(ms0.branch) && b in w.branches && w.branches[b].merge == Some(ms0)
    requires MergeOf(w.Plain(), b).open != {} && key == First(ms0.conflicts.Keys) && !answer.Skip?
    modifies w`branches, w`drawn, w.store, w.agent
    ensures w.Valid() && w.agent.State() == old(w.agent.State()) && Extends(old(w.store.files), w.store.files)
    ensures w.branches == old(w.branches)[b := old(w.branches)[b].(merge := Some(ms))]
    ensures ms == ms0.(resolved := ms.resolved, conflicts := ms0.conflicts - {key})
    ensures w.Plain() == WithMerge(old(w.Plain()), b, Settle(MergeOf(old(w.Plain()), b), answer))
  {
    OpenIs(w.known, w.branches, b);
    ms := SettleOne(w, b, ms0, key, answer);
    SaveMerge(w, b, ms);
  }

  lemma SavedTwice(s0: Branches, s1: Branches, s2: Branches, b: string, x: Option<MergeState>, y: Option<MergeState>)
    requires b in s0 && s1 == s0[b := s0[b].(merge := x)] && s2 == s1[b := s1[b].(merge := y)]
    ensures s2 == s0[b := s0[b].(merge := y)]
  {}

  lemma MeantTwice(s0: PlainState, s1: PlainState, s2: PlainState, b: string, x: PlainMerge, y: PlainMerge)
    requires b in s0 && s1 == WithMerge(s0, b, x) && s2 == WithMerge(s1, b, y)
    ensures s2 == WithMerge(s0, b, y)
  {}

  lemma PrefixMore<T>(p: seq<T>, s: seq<T>)
    requires p <= s
    ensures |p| < |s| ==> p + [s[|p|]] <= s
    ensures |p| == |s| ==> p == s
  {}

  method OpenKeys(conflicts: map<string, ConflictHashes>) returns (keys: seq<string>)
    ensures Lists(keys, conflicts.Keys)
  {
    keys := SortedKeys(conflicts.Keys);
    SortedLists(conflicts.Keys);
  }

  /** One turn of the loop, from the merge `now` to the merge `next`; `s0` and `r0` are the state the
      loop started from. */
  method PromptNext(
    w: Workspace, b: string, ms: MergeState, key: string, answer: Answer,
    ghost s0: PlainState, ghost r0: Branches, ghost now: PlainMerge, ghost next: PlainMerge)
    returns (ms': MergeState)
    requires w.Valid() && w.Ready(b) && w.Ready(ms.branch) && b in r0
               && w.branches == r0[b := r0[b].(merge := Some(ms))]
    requires b in s0 && w.Plain() == WithMerge(s0, b, now)
    requires now.open != {} && key == First(now.open) && !answer.Skip? && next == Settle(now, answer)
    modifies w`branches, w`drawn, w.store, w.agent
    ensures w.Valid() && w.agent.State() == old(w.agent.State()) && Extends(old(w.store.files), w.store.files)
    ensures w.branches == r0[b := r0[b].(merge := Some(ms'))]
    ensures ms' == ms.(resolved := ms'.resolved, conflicts := ms'.conflicts)
    ensures w.Plain() == WithMerge(s0, b, next)
  {
    ghost var s1, r1 := w.Plain(), w.branches;
    OpenIs(w.known, w.branches, b);
    ms' := AnswerOne(w, b, ms, key, answer);
    SavedTwice(r0, r1, w.branches, b, Some(ms), Some(ms'));
    MeantTwice(s0, s1, w.Plain(), b, now, next);
  }

  /** The prompt loop over the open conflicts. Every answer is saved before the next prompt; `saved`
      lists the meaning of what was saved, from the first state on. */
  method ResolveConflicts(w: Workspace, b: string, ms0: MergeState, answers: seq<Answer>)
    returns (ms: MergeState, ghost saved: seq<PlainMerge>)
    requires w.Valid() && w.Ready(b) && w.Ready(ms0.branch) && b in w.branches && w.branches[b].merge == Some(ms0)
    modifies w`branches, w`drawn, w.store, w.agent
    ensures w.Valid() && w.agent.State() == old(w.agent.State()) && Extends(old(w.store.files), w.store.files)
    ensures w.branches == old(w.branches)[b := old(w.branches)[b].(merge := Some(ms))]
    ensures ms == ms0.(resolved := ms.resolved, conflicts := ms.conflicts)
    ensures w.Plain() == WithMerge(old(w.Plain()), b, Session(MergeOf(old(w.Plain()), b), answers))
    ensures saved == Line(MergeOf(old(w.Plain()), b), answers)
  {
    ms := ms0;
    var keys := OpenKeys(ms.conflicts);
    var i := 0;
    ghost var s0, r0, pm := w.Plain(), w.branches, MergeOf(w.Plain(), b);
    ghost var line := Line(pm, answers);
    saved := [pm];
    OpenIs(w.known, w.branches, b);
    while i < |keys| && i < |answers| && !answers[i].Skip?
      invariant 0 <= i < |line|
      invariant w.Valid() && w.agent.State() == old(w.agent.State()) && Extends(old(w.store.files), w.store.files)
      invariant w.branches == r0[b := r0[b].(merge := Some(ms))]
      invariant ms == ms0.(resolved := ms.resolved, conflicts := ms.conflicts)
      invariant w.Plain() == WithMerge(s0, b, line[i])
      invariant |saved| == i + 1 && saved <= line
    {
      LineAt(pm, answers, keys, line, i);
      PrefixMore(saved, line);
      ms := PromptNext(w, b, ms, keys[i], answers[i], s0, r0, line[i], line[i + 1]);
      saved := saved + [MergeOf(w.Plain(), b)];
      i := i + 1;
    }
    LineAt(pm, answers, keys, line, i);
    PrefixMore(saved, line);
  }

  // ---- The merged map ---------------------------------------------------------------------------

  /** Split a merge into what is settled and which hashes conflict. */
  method SplitMerge(merged: map<string, MergeEntry>, oursEntries: map<string, Hash>, theirsEntries: map<string, Hash>)
    returns (resolvedPlain: map<string, Option<string>>, conflicts: map<string, ConflictHashes>)
    ensures resolvedPlain == map k | k in merged && merged[k].Resolved? :: merged[k].value
    ensures conflicts == map k | k in merged && merged[k].Conflict? ::
              ConflictHashes(HashAt(oursEntries, k), HashAt(theirsEntries, k))
  {
    resolvedPlain, conflicts := map[], map[];
    var todo := merged.Keys;
    while todo != {}
      invariant todo <= merged.Keys
      invariant resolvedPlain == map k | k in merged && k !in todo && merged[k].Resolved? :: merged[k].value
      invariant conflicts == map k | k in merged && k !in todo && merged[k].Conflict? ::
                               ConflictHashes(HashAt(oursEntries, k), HashAt(theirsEntries, k))
      decreases todo
    {
      var key :| key in todo;
      match merged[key] {
        case Resolved(value) => resolvedPlain := resolvedPlain[key := value];
        case Conflict(_, _) =>
          conflicts := conflicts[key := ConflictHashes(HashAt(oursEntries, key), HashAt(theirsEntries, key))];
      }
      todo := todo - {key};
    }
  }

  method ReadAnswer(w: Workspace, b: string, entry: ResolvedEntry) returns (value: Option<string>)
    requires w.Valid() && w.Ready(b) && (entry.Settled? ==> BlobOk(w.store.files, w.known, b, entry.hash))
    modifies w.agent
    ensures w.agent.State() == old(w.agent.State())
    ensures value == PlainAnswer(w.known[b], entry)
  {
    if entry.Delete? {
      return None;
    }
    var plain := DecryptStored(w.store, w.agent, b, entry.hash);
    assert plain.Ok?;
    return Some(plain.value);
  }

  /** Fold the recorded answers into what the rule settled. */
  method FoldAnswers(
    w: Workspace, b: string, resolvedPlain: map<string, Option<string>>, resolved: map<string, ResolvedEntry>)
    returns (all: map<string, Option<string>>)
    requires w.Valid() && w.Ready(b)
    requires forall k | k in resolved && resolved[k].Settled? :: BlobOk(w.store.files, w.known, b, resolved[k].hash)
    modifies w.agent
    ensures w.agent.State() == old(w.agent.State())
    ensures all == resolvedPlain + PlainResolved(w.known[b], resolved)
  {
    all := resolvedPlain;
    var todo := resolved.Keys;
    ghost var answered := PlainResolved(w.known[b], resolved);
    assert answered.Keys == todo;
    FoldBounds(resolvedPlain, answered);
    while todo != {}
      invariant w.agent.State() == old(w.agent.State())
      invariant todo <= resolved.Keys
      invariant all == Folded(resolvedPlain, answered, todo)
      decreases todo
    {
      var key :| key in todo;
      Refold(resolvedPlain, answered, todo, key);
      var value := ReadAnswer(w, b, resolved[key]);
      all := all[key := value];
      todo := todo - {key};
    }
  }

  /** What is settled once all but `todo` of the answers are folded in. */
  ghost function Folded(
    auto: map<string, Option<string>>, answered: map<string, Option<string>>, todo: set<string>)
    : map<string, Option<string>>
  {
    auto + (answered - todo)
  }

  lemma FoldBounds(auto: map<string, Option<string>>, answered: map<string, Option<string>>)
    ensures Folded(auto, answered, answered.Keys) == auto && Folded(auto, answered, {}) == auto + answered
  {}

  lemma Refold(auto: map<string, Option<string>>, answered: map<string, Option<string>>, todo: set<string>, key: string)
    requires key in todo && key in answered
    ensures Folded(auto, answered, todo - {key}) == Folded(auto, answered, todo)[key := answered[key]]
  {}

  // ---- The commands -----------------------------------------------------------------------------

  datatype MergeOutcome = AlreadyMerged | Merged(commit: Hash, summary: Summary) | Paused(open: nat)

  /** A merge before any prompt, in plaintext. */
  ghost function MergeStart(s: PlainState, ours: string, theirs: string): PlainMerge {
    var base, o, t := ForkBase(s, ours, theirs), PlainStateOf(s, ours).committed, PlainStateOf(s, theirs).committed;
    PlainMerge(theirs, base, o, t, map[], Conflicts(base, o, t))
  }

  /** What a session at the prompt leaves of a branch: the merged map, or the paused merge. */
  ghost function AfterSession(p: PlainBranch, pm: PlainMerge): PlainBranch {
    if pm.open == {} then p.(committed := Final(pm), merge := None) else p.(merge := Some(pm))
  }

  /** Decrypt the three maps, each under its own branch's key. No read fails: the recorded fork root
      opens under the key chosen for it. */
  method ReadSides(w: Workspace, b: string, theirs: string, oursTip: Hash, theirsTip: Hash)
    returns (baseMap: Plain, oursMap: Plain, theirsMap: Plain)
    requires w.Valid() && w.Ready(b) && w.Ready(theirs) && b in w.branches && theirs in w.branches
    requires TipOk(w.store.files, w.known, b, oursTip) && TipOk(w.store.files, w.known, theirs, theirsTip)
    modifies w.agent
    ensures w.agent.State() == old(w.agent.State())
    ensures baseMap == PlainBase(w.known, w.branches, b, theirs)
    ensures oursMap == PlainOf(w.known[b], EntriesOf(oursTip))
    ensures theirsMap == PlainOf(w.known[theirs], EntriesOf(theirsTip))
  {
    var (base, cipher) := MergeBaseAndCipher(w.branches, b, theirs);
    assert BranchOk(w.store.files, w.known, w.branches, b) && BranchOk(w.store.files, w.known, w.branches, theirs);
    var atBase := w.TreeToPlaintext(cipher, base);
    var ours := w.TreeToPlaintext(b, Some(oursTip));
    var atTheirs := w.TreeToPlaintext(theirs, Some(theirsTip));
    assert atBase.Ok? && ours.Ok? && atTheirs.Ok?;
    return atBase.value, ours.value, atTheirs.value;
  }

  /** Apply the three-way rule to the decrypted maps and separate what it leaves open. */
  method PlanMerge(w: Workspace, b: string, theirs: string, oursTip: Hash, theirsTip: Hash)
    returns (oursMap: Plain, resolvedPlain: map<string, Option<string>>, conflicts: map<string, ConflictHashes>)
    requires w.Valid() && w.Ready(b) && w.Ready(theirs) && b in w.branches && theirs in w.branches
    requires TipOk(w.store.files, w.known, b, oursTip) && TipOk(w.store.files, w.known, theirs, theirsTip)
    modifies w.agent
    ensures w.agent.State() == old(w.agent.State())
    ensures var deks := w.known;
            var base := PlainBase(deks, w.branches, b, theirs);
            var o, t := PlainOf(deks[b], EntriesOf(oursTip)), PlainOf(deks[theirs], EntriesOf(theirsTip));
            && oursMap == o
            && resolvedPlain == Automatic(PlainMerge(theirs, base, o, t, map[], {}))
            && conflicts == map k | k in Conflicts(base, o, t) ::
                 ConflictHashes(HashAt(EntriesOf(oursTip), k), HashAt(EntriesOf(theirsTip), k))
  {
    var baseMap, ours, theirsMap := ReadSides(w, b, theirs, oursTip, theirsTip);
    var merged := ThreeWayMerge(baseMap, ours, theirsMap);
    ConflictingKeys(baseMap, ours, theirsMap);
    oursMap := ours;
    resolvedPlain, conflicts := SplitMerge(merged, EntriesOf(oursTip), EntriesOf(theirsTip));
  }

  lemma ConflictingKeys(base: Plain, ours: Plain, theirs: Plain)
    ensures forall k :: k in Conflicts(base, ours, theirs) <==>
              k in ThreeWay.Merged(base, ours, theirs) && ThreeWay.Merged(base, ours, theirs)[k].Conflict?
  {}

  /** Build the two-parent merge commit from what was settled and answered. */
  method FinalizeMerge(
    w: Workspace, b: string, oursTip: Hash, theirsTip: Hash, oursMap: Plain,
    resolvedPlain: map<string, Option<string>>, resolved: map<string, ResolvedEntry>, theirs: string, timestamp: int)
    returns (h: Hash, summary: Summary)
    requires w.Valid() && w.Ready(b)
    requires forall k | k in resolved && resolved[k].Settled? :: BlobOk(w.store.files, w.known, b, resolved[k].hash)
    requires Sound(w.store.files, oursTip) && Sound(w.store.files, theirsTip)
    modifies w`drawn, w.store, w.agent
    ensures w.Valid() && w.agent.State() == old(w.agent.State()) && Extends(old(w.store.files), w.store.files)
    ensures TipOk(w.store.files, w.known, b, h)
    ensures Authored(h, w.user, MergeMessage(theirs), timestamp)
    ensures var all := resolvedPlain + PlainResolved(w.known[b], resolved);
            && Commits(w.store.files, w.known[b], h, Present(all), [oursTip, theirsTip], w.user)
            && summary.workingSet == Present(all)
            && summary.added == |AddedKeys(oursMap, all)|
            && summary.changed == |ChangedKeys(oursMap, all)|
            && summary.removed == |RemovedKeys(oursMap, all)|
  {
    var all := FoldAnswers(w, b, resolvedPlain, resolved);
    summary := Summarise(oursMap, all);
    var committed := BuildAndSign(w.store, w.agent, b, w.user, [oursTip, theirsTip], summary.workingSet,
                                  MergeMessage(theirs), timestamp, w.drawn);
    assert committed.Ok?;
    w.drawn := w.drawn + |summary.workingSet|;
    StoreGrew(old(w.store.files), w.known, w.branches, w.store.files);
    return committed.value, summary;
  }

  /** Saving a finished merge: the new tip, no paused merge, everything else as it was. */
  lemma MergeFinished(files: Files, deks: Deks, branches: Branches, b: string, h: Hash)
    requires StateOk(files, deks, branches) && b in branches && TipOk(files, deks, b, h)
    ensures var branches' := branches[b := branches[b].(tip := Some(h), merge := None)];
            && StateOk(files, deks, branches')
            && Meaning(deks, branches') == Meaning(deks, branches)[b :=
                 Meaning(deks, branches)[b].(committed := PlainOf(deks[b], EntriesOf(h)), merge := None)]
  {
    var branches' := branches[b := branches[b].(tip := Some(h), merge := None)];
    OneBranchChanged(files, deks, branches, files, deks, branches', b);
  }

  /** The merge commit of a merge whose conflicts are all answered. */
  method CommitMerge(
    w: Workspace, b: string, ms: MergeState, oursMap: Plain, resolvedPlain: map<string, Option<string>>,
    timestamp: int)
    returns (h: Hash, summary: Summary)
    requires w.Valid() && w.Ready(b) && b in w.branches && MergeOk(w.store.files, w.known, w.branches, b, ms)
    requires ms.conflicts == map[]
    requires var pm := PlainMergeOf(w.known, w.branches, b, ms); oursMap == pm.ours && resolvedPlain == Automatic(pm)
    modifies w`drawn, w.store, w.agent
    ensures w.Valid() && w.agent.State() == old(w.agent.State()) && Extends(old(w.store.files), w.store.files)
    ensures TipOk(w.store.files, w.known, b, h)
    ensures Authored(h, w.user, MergeMessage(ms.branch), timestamp)
    ensures var pm := PlainMergeOf(w.known, w.branches, b, ms);
            && Commits(w.store.files, w.known[b], h, Final(pm), [ms.oursTip, ms.theirsTip], w.user)
            && SummaryOf(pm, summary)
  {
    ghost var pm := PlainMergeOf(w.known, w.branches, b, ms);
    h, summary := FinalizeMerge(w, b, ms.oursTip, ms.theirsTip, oursMap, resolvedPlain, ms.resolved, ms.branch,
      timestamp);
    SummaryIsTruthful(pm, summary);
  }

  lemma SummaryIsTruthful(pm: PlainMerge, s: Summary)
    requires PartitionsConflicts(pm) && pm.open == {}
    requires var all := Automatic(pm) + pm.resolved;
             s.added == |AddedKeys(pm.ours, all)| && s.changed == |ChangedKeys(pm.ours, all)|
               && s.removed == |RemovedKeys(pm.ours, all)|
    ensures SummaryOf(pm, s)
  {
    var all := Automatic(pm) + pm.resolved;
    EveryKeyIsSettled(pm);
    assert pm.ours.Keys <= all.Keys;
    SummaryAddsUp(pm.ours, all);
    CountedKeys(pm.ours, all, s);
  }

  /** All conflicts answered: commit the merge and clear its state. */
  method CompleteMerge(
    w: Workspace, b: string, ms: MergeState, oursMap: Plain, resolvedPlain: map<string, Option<string>>,
    timestamp: int)
    returns (h: Hash, summary: Summary)
    requires w.Valid() && w.Ready(b) && b in w.branches && MergeOk(w.store.files, w.known, w.branches, b, ms)
    requires ms.conflicts == map[]
    requires var pm := PlainMergeOf(w.known, w.branches, b, ms); oursMap == pm.ours && resolvedPlain == Automatic(pm)
    modifies w`branches, w`drawn, w.store, w.agent
    ensures w.Valid() && w.agent.State() == old(w.agent.State()) && Extends(old(w.store.files), w.store.files)
    ensures w.branches == old(w.branches)[b := old(w.branches)[b].(tip := Some(h), merge := None)]
    ensures Authored(h, w.user, MergeMessage(ms.branch), timestamp)
    ensures var pm := PlainMergeOf(w.known, old(w.branches), b, ms);
            && w.Plain() == old(w.Plain())[b := old(w.Plain())[b].(committed := Final(pm), merge := None)]
            && Commits(w.store.files, w.known[b], h, Final(pm), [ms.oursTip, ms.theirsTip], w.user)
            && SummaryOf(pm, summary)
  {
    h, summary := CommitMerge(w, b, ms, oursMap, resolvedPlain, timestamp);
    MergeFinished(w.store.files, w.known, w.branches, b, h);
    w.branches := w.branches[b := w.branches[b].(tip := Some(h), merge := None)];
  }

  /** Merge another branch into this one. */
  method Merge(w: Workspace, b: string, theirs: string, answers: seq<Answer>, timestamp: int)
    returns (r: Result<MergeOutcome, CliError>)
    requires w.Valid()
    modifies w`branches, w`drawn, w.store, w.agent
    ensures w.Valid() && w.agent.State() == old(w.agent.State()) && Extends(old(w.store.files), w.store.files)
    ensures r.Ok? <==>
              && w.Ready(b) && w.Ready(theirs) && StateOf(old(w.branches), b).merge.None?
              && StateOf(old(w.branches), b).tip.Some? && StateOf(old(w.branches), theirs).tip.Some?
    ensures r.Err? || r.value.AlreadyMerged? ==> w.branches == old(w.branches) && w.Plain() == old(w.Plain())
    ensures r.Ok? ==> (r.value.AlreadyMerged?
              <==> StateOf(old(w.branches), b).tip == StateOf(old(w.branches), theirs).tip)
    ensures r.Ok? && !r.value.AlreadyMerged? ==>
              var pm := Session(MergeStart(old(w.Plain()), b, theirs), answers);
              && SessionMeans(old(w.Plain()), b, pm, w.Plain())
              && OutcomeIs(w, b, r.value, pm, StateOf(old(w.branches), b).tip.value,
                           StateOf(old(w.branches), theirs).tip.value, timestamp)
              && OnlyMerged(old(w.branches), w.branches, b, r.value)
  {
    if !w.Ready(b) || !w.Ready(theirs) {
      return Err(NotReady(if w.Ready(b) then theirs else b));
    }
    var ours, other := StateOf(w.branches, b), StateOf(w.branches, theirs);
    if ours.merge.Some? {
      return Err(MergeInProgress);
    }
    if ours.tip.None? || other.tip.None? {
      return Err(NoCommits(if ours.tip.None? then b else theirs));
    }
    if ours.tip == other.tip {
      return Ok(AlreadyMerged);
    }
    assert BranchOk(w.store.files, w.known, w.branches, b) && BranchOk(w.store.files, w.known, w.branches, theirs);
    var oursMap, resolvedPlain, conflicts := PlanMerge(w, b, theirs, ours.tip.value, other.tip.value);
    var base := MergeBaseAndCipher(w.branches, b, theirs).0;
    var ms := MergeState(theirs, ours.tip.value, other.tip.value, base, map[], conflicts);
    MergeStartMeans(w.known, w.branches, b, ms);
    MergeBegins(w.store.files, w.known, w.branches, b, ms);
    var outcome := RunMerge(w, b, ms, oursMap, resolvedPlain, answers, timestamp);
    return Ok(outcome);
  }

  /** The conflicts a merge of two tips starts with. */
  ghost predicate FreshConflicts(deks: Deks, branches: Branches, b: string, ms: MergeState) {
    && ms.resolved == map[]
    && ms.conflicts == map k | k in Conflicts(
           PlainBase(deks, branches, b, ms.branch),
           PlainTip(KeyOf(deks, b), Some(ms.oursTip)), PlainTip(KeyOf(deks, ms.branch), Some(ms.theirsTip))) ::
         ConflictHashes(HashAt(EntriesOf(ms.oursTip), k), HashAt(EntriesOf(ms.theirsTip), k))
  }

  /** The state a merge starts from means what the user sees ... */
  lemma MergeStartMeans(deks: Deks, branches: Branches, b: string, ms: MergeState)
    requires b in branches && ms.branch in branches && FreshConflicts(deks, branches, b, ms)
    requires branches[b].tip == Some(ms.oursTip) && branches[ms.branch].tip == Some(ms.theirsTip)
    ensures PlainMergeOf(deks, branches, b, ms) == MergeStart(Meaning(deks, branches), b, ms.branch)
  {
    BaseIsForkBase(deks, branches, b, ms.branch);
    assert PlainResolved(KeyOf(deks, b), map[]) == map[];
  }

  /** ... and is a proper merge state. */
  lemma MergeBegins(files: Files, deks: Deks, branches: Branches, b: string, ms: MergeState)
    requires FreshConflicts(deks, branches, b, ms)
    requires MergeTipsOk(files, deks, branches, b, ms.branch, ms.oursTip, ms.theirsTip, ms.base)
    ensures MergeOk(files, deks, branches, b, ms)
  {}

  /** The state a session leaves behind: merged or paused, at this branch only. */
  ghost predicate SessionMeans(s: PlainState, b: string, pm: PlainMerge, s': PlainState) {
    b in s && s' == s[b := AfterSession(s[b], pm)]
  }

  lemma PausedMeans(s0: PlainState, s1: PlainState, b: string, pm: PlainMerge)
    requires b in s0 && s1 == WithMerge(s0, b, pm) && pm.open != {}
    ensures SessionMeans(s0, b, pm, s1)
  {}

  lemma FinishedMeans(s0: PlainState, s1: PlainState, s2: PlainState, b: string, pm: PlainMerge)
    requires b in s0 && s1 == WithMerge(s0, b, pm) && pm.open == {}
    requires s2 == s1[b := s1[b].(committed := Final(pm), merge := None)]
    ensures SessionMeans(s0, b, pm, s2)
  {}

  /** Saving the merge before the first prompt does not change what the session leaves. */
  lemma SavedFirst(s0: PlainState, s1: PlainState, s2: PlainState, b: string, pm0: PlainMerge, pm: PlainMerge)
    requires b in s0 && s1 == WithMerge(s0, b, pm0) && SessionMeans(s1, b, pm, s2)
    ensures SessionMeans(s0, b, pm, s2)
  {}

  /** Commit at once when nothing conflicts; otherwise save, prompt, and commit or stay paused. */
  method RunMerge(
    w: Workspace, b: string, ms0: MergeState, oursMap: Plain, resolvedPlain: map<string, Option<string>>,
    answers: seq<Answer>, timestamp: int)
    returns (outcome: MergeOutcome)
    requires w.Valid() && w.Ready(b) && w.Ready(ms0.branch)
    requires b in w.branches && MergeOk(w.store.files, w.known, w.branches, b, ms0)
    requires var pm := PlainMergeOf(w.known, w.branches, b, ms0); oursMap == pm.ours && resolvedPlain == Automatic(pm)
    modifies w`branches, w`drawn, w.store, w.agent
    ensures w.Valid() && w.agent.State() == old(w.agent.State()) && Extends(old(w.store.files), w.store.files)
    ensures var pm := Session(PlainMergeOf(w.known, old(w.branches), b, ms0), answers);
            && SessionMeans(old(w.Plain()), b, pm, w.Plain())
            && OutcomeIs(w, b, outcome, pm, ms0.oursTip, ms0.theirsTip, timestamp)
    ensures OnlyMerged(old(w.branches), w.branches, b, outcome)
  {
    ghost var before, deks := w.branches, w.known;
    ghost var pm0 := PlainMergeOf(deks, before, b, ms0);
    if ms0.conflicts == map[] {
      assert pm0.open == {};
      var h, summary := CompleteMerge(w, b, ms0, oursMap, resolvedPlain, timestamp);
      return Merged(h, summary);
    }
    SaveMerge(w, b, ms0);
    ghost var saved, mid := w.Plain(), w.branches;
    outcome := PromptAndFinish(w, b, ms0, oursMap, resolvedPlain, answers, timestamp);
    SavedFirst(Meaning(deks, before), saved, w.Plain(), b, pm0, Session(pm0, answers));
    OnlyAfterSaving(before, mid, w.branches, b, ms0, outcome);
  }

  method SaveMerge(w: Workspace, b: string, ms: MergeState)
    requires w.Valid() && b in w.branches && MergeOk(w.store.files, w.known, w.branches, b, ms)
    modifies w`branches
    ensures w.Valid() && w.branches == old(w.branches)[b := old(w.branches)[b].(merge := Some(ms))]
    ensures PlainMergeOf(w.known, w.branches, b, ms) == PlainMergeOf(w.known, old(w.branches), b, ms)
    ensures w.Plain() == old(w.Plain())[b :=
              old(w.Plain())[b].(merge := Some(PlainMergeOf(w.known, old(w.branches), b, ms)))]
  {
    MergeSaved(w.store.files, w.known, w.branches, w.store.files, b, ms);
    w.branches := w.branches[b := w.branches[b].(merge := Some(ms))];
  }

  /** A session at the prompt over a saved merge, and the merge commit if it settles everything. */
  method PromptAndFinish(
    w: Workspace, b: string, ms0: MergeState, oursMap: Plain, resolvedPlain: map<string, Option<string>>,
    answers: seq<Answer>, timestamp: int)
    returns (outcome: MergeOutcome)
    requires w.Valid() && w.Ready(b) && w.Ready(ms0.branch) && b in w.branches && w.branches[b].merge == Some(ms0)
    requires var pm := MergeOf(w.Plain(), b); oursMap == pm.ours && resolvedPlain == Automatic(pm)
    modifies w`branches, w`drawn, w.store, w.agent
    ensures w.Valid() && w.agent.State() == old(w.agent.State()) && Extends(old(w.store.files), w.store.files)
    ensures var pm := Session(MergeOf(old(w.Plain()), b), answers);
            && SessionMeans(old(w.Plain()), b, pm, w.Plain())
            && OutcomeIs(w, b, outcome, pm, ms0.oursTip, ms0.theirsTip, timestamp)
    ensures OnlyMerged(old(w.branches), w.branches, b, outcome)
  {
    ghost var s0 := w.Plain();
    var ms, saved := ResolveConflicts(w, b, ms0, answers);
    ghost var s1, mid := w.Plain(), w.branches;
    SessionKeepsSides(MergeOf(s0, b), answers);
    OpenIs(w.known, w.branches, b);
    if ms.conflicts != map[] {
      assert ms.conflicts.Keys != {};
      PausedMeans(s0, s1, b, MergeOf(s1, b));
      outcome := Paused(|ms.conflicts|);
      OnlyPaused(old(w.branches), w.branches, b, ms, outcome);
      return;
    }
    outcome := EndSession(w, b, ms, oursMap, resolvedPlain, timestamp, s0, old(w.branches), MergeOf(s1, b));
  }

  /** The end of a session that left nothing open: the merge commit. `s0` and `r0` are the state in
      which the session started, `pm` what it made of the merge. */
  method EndSession(
    w: Workspace, b: string, ms: MergeState, oursMap: Plain, resolvedPlain: map<string, Option<string>>, timestamp: int,
    ghost s0: PlainState, ghost r0: Branches, ghost pm: PlainMerge)
    returns (outcome: MergeOutcome)
    requires w.Valid() && w.Ready(b) && b in r0 && w.branches == r0[b := r0[b].(merge := Some(ms))]
    requires b in s0 && w.Plain() == WithMerge(s0, b, pm) && ms.conflicts == map[]
    requires oursMap == pm.ours && resolvedPlain == Automatic(pm)
    modifies w`branches, w`drawn, w.store, w.agent
    ensures w.Valid() && w.agent.State() == old(w.agent.State()) && Extends(old(w.store.files), w.store.files)
    ensures outcome.Merged?
    ensures SessionMeans(s0, b, pm, w.Plain()) && OutcomeIs(w, b, outcome, pm, ms.oursTip, ms.theirsTip, timestamp)
    ensures OnlyMerged(r0, w.branches, b, outcome)
  {
    ghost var s1, mid := w.Plain(), w.branches;
    OpenIs(w.known, w.branches, b);
    SavedMergeOk(w.store.files, w.known, w.branches, b, ms);
    var h, summary := CompleteMerge(w, b, ms, oursMap, resolvedPlain, timestamp);
    FinishedMeans(s0, s1, w.Plain(), b, pm);
    outcome := Merged(h, summary);
    OnlyFinished(r0, mid, w.branches, b, ms, h, outcome);
  }

  /** A merge writes the branch's tip and paused merge, and the tip only if it finishes. */
  ghost predicate OnlyMerged(before: Branches, after: Branches, b: string, outcome: MergeOutcome) {
    && b in before && b in after
    && after == before[b := before[b].(tip := after[b].tip, merge := after[b].merge)]
    && (outcome.Paused? ==> after[b].tip == before[b].tip)
  }

  lemma OnlyPaused(before: Branches, after: Branches, b: string, ms: MergeState, outcome: MergeOutcome)
    requires b in before && after == before[b := before[b].(merge := Some(ms))]
    ensures OnlyMerged(before, after, b, outcome)
  {}

  lemma OnlyFinished(
    before: Branches, mid: Branches, after: Branches, b: string, ms: MergeState, h: Hash, outcome: MergeOutcome)
    requires b in before && mid == before[b := before[b].(merge := Some(ms))]
    requires after == mid[b := mid[b].(tip := Some(h), merge := None)] && !outcome.Paused?
    ensures OnlyMerged(before, after, b, outcome)
  {}

  lemma OnlyAfterSaving(
    before: Branches, mid: Branches, after: Branches, b: string, ms: MergeState, outcome: MergeOutcome)
    requires b in before && mid == before[b := before[b].(merge := Some(ms))] && OnlyMerged(mid, after, b, outcome)
    ensures OnlyMerged(before, after, b, outcome)
  {}

  ghost predicate OutcomeIs(
    w: Workspace, b: string, outcome: MergeOutcome, pm: PlainMerge, oursTip: Hash, theirsTip: Hash, timestamp: int)
    requires b in w.known
    reads w, w.store, w.agent
  {
    if pm.open != {} then
      && outcome == Paused(|pm.open|) && b in w.branches && w.branches[b].merge.Some?
      && w.branches[b].merge.value.oursTip == oursTip && w.branches[b].merge.value.theirsTip == theirsTip
    else
      && outcome.Merged? && MergedAs(w, b, outcome, pm, oursTip, theirsTip)
      && Authored(outcome.commit, w.user, MergeMessage(pm.theirsBranch), timestamp)
  }

  /** A finished merge: a commit of both tips whose every blob opens under the current branch's key,
      holding exactly the final map, with a truthful summary. */
  ghost predicate MergedAs(
    w: Workspace, b: string, outcome: MergeOutcome, pm: PlainMerge, oursTip: Hash, theirsTip: Hash)
    requires outcome.Merged? && b in w.known
    reads w, w.store, w.agent
  {
    && b in w.branches && w.branches[b].tip == Some(outcome.commit)
    && Commits(w.store.files, w.known[b], outcome.commit, Final(pm), [oursTip, theirsTip], w.user)
    && SummaryOf(pm, outcome.summary)
  }

  ghost predicate SummaryOf(pm: PlainMerge, s: Summary) {
    && |Final(pm)| == |pm.ours| + s.added - s.removed
    && (s.added == s.changed == s.removed == 0 <==> Final(pm) == pm.ours)
    && Counts(s, pm.ours, Final(pm))
  }

  lemma SameAutomatic(deks: Deks, branches: Branches, b: string, ms: MergeState)
    ensures var pm := PlainMergeOf(deks, branches, b, ms);
            Automatic(pm) == Automatic(PlainMerge(ms.branch, pm.base, pm.ours, pm.theirs, map[], {}))
  {}

  /** Resume a paused merge from its saved tips. */
  method MergeContinue(w: Workspace, b: string, answers: seq<Answer>, timestamp: int)
    returns (r: Result<MergeOutcome, CliError>)
    requires w.Valid()
    modifies w`branches, w`drawn, w.store, w.agent
    ensures w.Valid() && w.agent.State() == old(w.agent.State()) && Extends(old(w.store.files), w.store.files)
    ensures r.Ok? <==>
              w.Ready(b) && StateOf(old(w.branches), b).merge.Some?
                && w.Ready(StateOf(old(w.branches), b).merge.value.branch)
    ensures r.Err? ==> w.branches == old(w.branches) && w.Plain() == old(w.Plain())
    ensures r.Ok? ==>
              var ms := StateOf(old(w.branches), b).merge.value;
              var pm := Session(PlainStateOf(old(w.Plain()), b).merge.value, answers);
              && SessionMeans(old(w.Plain()), b, pm, w.Plain())
              && OutcomeIs(w, b, r.value, pm, ms.oursTip, ms.theirsTip, timestamp)
              && OnlyMerged(old(w.branches), w.branches, b, r.value)
  {
    if !w.Ready(b) {
      return Err(NotReady(b));
    }
    var ms0 := StateOf(w.branches, b).merge;
    if ms0.None? {
      return Err(NoMerge);
    }
    if !w.Ready(ms0.value.branch) {
      return Err(NotReady(ms0.value.branch));
    }
    var outcome := ContinueSaved(w, b, ms0.value, answers, timestamp);
    return Ok(outcome);
  }

  method ContinueSaved(w: Workspace, b: string, ms0: MergeState, answers: seq<Answer>, timestamp: int)
    returns (outcome: MergeOutcome)
    requires w.Valid() && w.Ready(b) && w.Ready(ms0.branch) && b in w.branches && w.branches[b].merge == Some(ms0)
    modifies w`branches, w`drawn, w.store, w.agent
    ensures w.Valid() && w.agent.State() == old(w.agent.State()) && Extends(old(w.store.files), w.store.files)
    ensures var pm := Session(MergeOf(old(w.Plain()), b), answers);
            && SessionMeans(old(w.Plain()), b, pm, w.Plain())
            && OutcomeIs(w, b, outcome, pm, ms0.oursTip, ms0.theirsTip, timestamp)
    ensures OnlyMerged(old(w.branches), w.branches, b, outcome)
  {
    ghost var s0 := w.Plain();
    var ms, saved := ResolveConflicts(w, b, ms0, answers);
    ghost var s1, mid := w.Plain(), w.branches;
    OpenIs(w.known, w.branches, b);
    if ms.conflicts != map[] {
      assert ms.conflicts.Keys != {};
      PausedMeans(s0, s1, b, MergeOf(s1, b));
      outcome := Paused(|ms.conflicts|);
      OnlyPaused(old(w.branches), w.branches, b, ms, outcome);
      return;
    }
    SavedMergeOk(w.store.files, w.known, w.branches, b, ms);
    SameAutomatic(w.known, w.branches, b, ms);
    var oursMap, resolvedPlain, _ := PlanMerge(w, b, ms.branch, ms.oursTip, ms.theirsTip);
    outcome := EndSession(w, b, ms, oursMap, resolvedPlain, timestamp, s0, old(w.branches), MergeOf(s1, b));
  }

  /** Discard a paused merge: the branch is as if it had never been started. */
  method MergeAbort(w: Workspace, b: string) returns (r: Result<(), CliError>)
    requires w.Valid()
    modifies w`branches
    ensures w.Valid()
    ensures r.Ok? <==> PlainStateOf(old(w.Plain()), b).merge.Some?
    ensures w.Plain() == if r.Err? then old(w.Plain()) else old(w.Plain())[b := old(w.Plain())[b].(merge := None)]
    ensures w.branches == if r.Err? then old(w.branches) else old(w.branches)[b := old(w.branches)[b].(merge := None)]
  {
    if StateOf(w.branches, b).merge.None? {
      return Err(NoMerge);
    }
    ghost var next := w.branches[b := w.branches[b].(merge := None)];
    assert BranchOk(w.store.files, w.known, w.branches, b);
    OneBranchChanged(w.store.files, w.known, w.branches, w.store.files, w.known, next, b);
    w.branches := w.branches[b := w.branches[b].(merge := None)];
    return Ok(());
  }

  // ---- What a paused merge does not notice ------------------------------------------------------

  /** A finished merge commits the tips saved when it began. Work committed to the branch during the
      pause descends from our saved tip, and stays in the branch's history exactly when it was also in
      theirs. */
  lemma FinishedMergeKeepsWorkIff(
    files: Files, key: KeyId, h: Hash, plain: Plain, oursTip: Hash, theirsTip: Hash, person: PersonId, work: Hash)
    requires Commits(files, key, h, plain, [oursTip, theirsTip], person)
    requires oursTip in Ancestors(work) && work != oursTip && work != h
    ensures work in Ancestors(h) <==> work in Ancestors(theirsTip)
  {
    assert oursTip in Parents(h) && theirsTip in Parents(h);
    if work in Ancestors(oursTip) {
      AncestorAntisymmetric(work, oursTip);
    }
  }
}
