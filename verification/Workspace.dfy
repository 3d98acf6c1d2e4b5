// The commands that change a branch: set, unset, commit, fork, merge, continue and abort. A command
// loads the persisted state, works on it, and saves it; `branches` is what is saved.
module Workspace {
  import opened Wrappers
  import opened Crypto
  import opened KeyOrder
  import opened Objects
  import opened History
  import opened Vcs
  import opened ThreeWay
  import opened Agent
  import opened CommitBuilder
  import opened LocalState

  datatype CliError =
    | NotReady(branch: string)
    | NothingStaged
    | BranchExists
    | NoCommits(branch: string)
    | MergeInProgress
    | NoMerge
    | CannotRead(hash: Hash)
    | CannotDecrypt(reason: CipherError)
    | AgentRefused(refusal: AgentError)
    | NoAccess(branch: string)

  /** One sealed copy of a branch's key, and which version of the key it is. */
  datatype KeyEntry = KeyEntry(dekVersion: nat, sealedBox: SealedDek)

  datatype Held = Held(branch: string, person: PersonId)

  /** The sealed keys the server hands out. */
  type KeyMap = map<Held, seq<KeyEntry>>

  /** The entry with the highest version, the last such one. */
  function Newest(entries: seq<KeyEntry>): (newest: KeyEntry)
    requires entries != []
    ensures exists i :: LastHighest(entries, i) && entries[i] == newest
  {
    var n := |entries| - 1;
    var before := entries[..n];
    if before == [] || Newest(before).dekVersion <= entries[n].dekVersion then
      HighestSnoc(entries);
      entries[n]
    else
      HighestSnoc(entries);
      Newest(before)
  }

  /** Entry `i` has the highest version, and every later one has a lower version. */
  ghost predicate LastHighest(entries: seq<KeyEntry>, i: int) {
    && 0 <= i < |entries|
    && (forall j | 0 <= j < |entries| :: entries[j].dekVersion <= entries[i].dekVersion)
    && forall j | i < j < |entries| :: entries[j].dekVersion < entries[i].dekVersion
  }

  lemma HighestSnoc(entries: seq<KeyEntry>)
    requires entries != []
    ensures var n := |entries| - 1;
            && (n == 0 ==> LastHighest(entries, n))
            && (forall i | LastHighest(entries[..n], i) && entries[i].dekVersion <= entries[n].dekVersion ::
                  LastHighest(entries, n))
            && forall i | LastHighest(entries[..n], i) && entries[i].dekVersion > entries[n].dekVersion ::
                 LastHighest(entries, i)
  {
    var n := |entries| - 1;
    assert forall i | 0 <= i < n :: entries[..n][i] == entries[i];
  }

  /** The newest copy of a branch's key that is kept for this person holds that key. */
  ghost predicate Honest(keys: KeyMap, known: Deks, person: PersonId) {
    forall b | Held(b, person) in keys ::
      var entries := keys[Held(b, person)];
      entries != [] && b in known && Newest(entries).sealedBox == WrapDek(known[b], person)
  }

  /** Pending edits after staging some values, later ones winning. */
  ghost function EditAll(edits: map<string, Option<string>>, pairs: seq<(string, string)>): map<string, Option<string>>
    decreases |pairs|
  {
    if pairs == [] then edits
    else
      var (k, v) := pairs[|pairs| - 1];
      EditAll(edits, pairs[..|pairs| - 1])[k := Some(v)]
  }

  ghost function DropAll(edits: map<string, Option<string>>, keys: seq<string>): map<string, Option<string>>
    decreases |keys|
  {
    if keys == [] then edits else DropAll(edits, keys[..|keys| - 1])[keys[|keys| - 1] := None]
  }

  class Workspace {
    const store: LocalObjectStore
    const agent: Agent
    /** Whose workspace it is. */
    const user: PersonId
    var branches: Branches
    /** All keys and nonces drawn so far are below. */
    var drawn: nat
    /** The key of every context, whether or not the agent has it cached right now. */
    ghost var known: Deks

    ghost predicate Valid()
      reads this, store, agent
    {
      && StateOk(store.files, known, branches)
      && (forall b | b in agent.deks :: b in known && known[b] == agent.deks[b])
      && forall b | b in known :: known[b] < drawn
    }

    /** What the user of the machine sees. */
    ghost function Plain(): PlainState
      reads this
    {
      Meaning(known, branches)
    }

    constructor (agent: Agent, user: PersonId, drawn: nat)
      requires forall b | b in agent.deks :: agent.deks[b] < drawn
      ensures Valid() && Plain() == map[] && this.agent == agent && this.user == user && fresh(store)
    {
      this.store := new LocalObjectStore.Open();
      this.agent := agent;
      this.user := user;
      this.branches := map[];
      this.drawn := drawn;
      this.known := agent.deks;
    }

    /** The agent is unlocked for this workspace's user and has the branch's key cached. */
    predicate Ready(b: string)
      reads agent
    {
      agent.identity == Some(user) && b in agent.deks
    }

    // ---- The agent and its cache ----------------------------------------------------------------

    /** Locking forgets every cached key; what the branches mean stays. */
    method LockAgent()
      requires Valid()
      modifies agent
      ensures Valid() && agent.State() == AgentState(None, map[])
    {
      var response := agent.HandleRequest(Lock, 0);
    }

    method LogIn(wrapped: WrappedPrivateKey, passphrase: string) returns (done: bool)
      requires Valid()
      modifies agent
      ensures Valid() && agent.deks == old(agent.deks)
      ensures done <==> wrapped.WrappedPrivateKey? && wrapped.passphrase == passphrase
      ensures agent.identity == if done then Some(wrapped.person) else old(agent.identity)
    {
      var response := agent.HandleRequest(Login(wrapped, passphrase), 0);
      return response == Done;
    }

    /** Make a branch ready: if its key is not cached, unwrap the newest sealed copy the server has for
        this user, and note its version. */
    method ReadyBranch(b: string, keys: KeyMap) returns (r: Result<(), CliError>)
      requires Valid() && Honest(keys, known, user)
      modifies this`branches, agent
      ensures Valid() && agent.identity == old(agent.identity)
      ensures r.Ok? <==> agent.identity == Some(user) && (b in old(agent.deks) || Held(b, user) in keys)
      ensures r.Ok? ==> Ready(b)
      ensures if r.Ok? && b !in old(agent.deks)
              then
                && b in known && agent.deks == old(agent.deks)[b := known[b]]
                && branches == (var version := Newest(keys[Held(b, user)]).dekVersion;
                                old(branches)[b := StateOf(old(branches), b).(dekVersion := version)])
                && Plain() == old(Plain())[b := PlainStateOf(old(Plain()), b)]
              else agent.deks == old(agent.deks) && branches == old(branches) && Plain() == old(Plain())
    {
      if agent.identity != Some(user) {
        return Err(NotReady(b));
      }
      if b in agent.deks {
        return Ok(());
      }
      if Held(b, user) !in keys {
        return Err(NoAccess(b));
      }
      var entry := Newest(keys[Held(b, user)]);
      var response := agent.HandleRequest(UnwrapDekFor(b, entry.sealedBox), 0);
      VersionNoted(store.files, known, branches, b, entry.dekVersion);
      branches := branches[b := StateOf(branches, b).(dekVersion := entry.dekVersion)];
      return Ok(());
    }

    // ---- Reading --------------------------------------------------------------------------------

    /** Decrypt a whole commit; no commit is the empty map. */
    method TreeToPlaintext(context: string, tip: Option<Hash>) returns (r: Result<map<string, string>, CliError>)
      requires context in agent.deks
      modifies agent
      ensures agent.State() == old(agent.State())
      ensures r.Ok? <==> tip.None? || Readable(store.files, agent.deks[context], tip.value)
      ensures r.Ok? ==> r.value == PlainTip(agent.deks[context], tip)
    {
      if tip.None? {
        return Ok(map[]);
      }
      var tree := TreeOfCommit(store.files, tip.value);
      if tree.Err? {
        return Err(tree.error);
      }
      var entries := tree.value.entries;
      var keys := SortedKeys(entries.Keys);
      var plain: map<string, string> := map[];
      for i := 0 to |keys|
        invariant agent.State() == old(agent.State())
        invariant DecryptedSoFar(store.files, agent.deks[context], entries, keys[..i], plain)
      {
        assert keys[i] in keys;
        var value := DecryptStored(store, agent, context, entries[keys[i]]);
        if value.Err? {
          return Err(CannotDecrypt(value.error));
        }
        DecryptedMore(store.files, agent.deks[context], entries, keys, i, plain, value.value);
        plain := plain[keys[i] := value.value];
      }
      assert keys[..|keys|] == keys;
      AllDecrypted(store.files, agent.deks[context], entries, plain);
      return Ok(plain);
    }

    /** The committed tree decrypted, with the staged overlay. */
    method EffectiveWorkingSet(context: string, tip: Option<Hash>, staged: map<string, StagedEntry>)
      returns (r: Result<map<string, string>, CliError>)
      requires context in agent.deks
      modifies agent
      ensures agent.State() == old(agent.State())
      ensures r.Ok? <==> Effective(store.files, agent.deks[context], tip, staged)
      ensures r.Ok? ==> r.value == Patch(PlainEdits(agent.deks[context], staged), PlainTip(agent.deks[context], tip))
    {
      var committed := TreeToPlaintext(context, tip);
      if committed.Err? {
        return committed;
      }
      var keys := SortedKeys(staged.Keys);
      var plain := committed.value;
      ghost var key := agent.deks[context];
      for i := 0 to |keys|
        invariant agent.State() == old(agent.State())
        invariant Overlaid(store.files, key, staged, keys[..i], committed.value, plain)
      {
        assert keys[i] in keys;
        OverlayNext(store.files, key, staged, keys, i, committed.value, plain);
        match staged[keys[i]] {
          case Set(blobHash) =>
            var value := DecryptStored(store, agent, context, blobHash);
            if value.Err? {
              return Err(CannotDecrypt(value.error));
            }
            plain := plain[keys[i] := value.value];
          case Unset =>
            plain := plain - {keys[i]};
        }
      }
      OverlayEnds(store.files, key, staged, keys, committed.value, plain);
      return Ok(plain);
    }

    /** The current branch's effective values. */
    method ViewBranch(b: string) returns (r: Result<map<string, string>, CliError>)
      requires Valid()
      modifies agent
      ensures Valid() && agent.State() == old(agent.State())
      ensures r.Ok? <==> Ready(b)
      ensures r.Ok? ==> r.value == View(PlainStateOf(Plain(), b))
    {
      if !Ready(b) {
        return Err(NotReady(b));
      }
      var bs := StateOf(branches, b);
      r := EffectiveWorkingSet(b, bs.tip, bs.staged);
    }

    // ---- Staging --------------------------------------------------------------------------------

    /** Encrypt each value, store the blob, stage its hash. */
    method SetValues(b: string, pairs: seq<(string, string)>) returns (r: Result<(), CliError>)
      requires Valid()
      modifies this`branches, this`drawn, store, agent
      ensures Valid() && agent.State() == old(agent.State()) && Extends(old(store.files), store.files)
      ensures r.Ok? <==> Ready(b)
      ensures Plain() == if r.Err? then old(Plain())
                         else var p := PlainStateOf(old(Plain()), b);
                              old(Plain())[b := p.(edits := EditAll(p.edits, pairs))]
      ensures branches == if r.Err? then old(branches)
                          else old(branches)[b := StateOf(old(branches), b).(staged := StateOf(branches, b).staged)]
    {
      if !Ready(b) {
        return Err(NotReady(b));
      }
      var bs := StateOf(branches, b);
      var staged := bs.staged;
      ghost var key, edits := agent.deks[b], PlainEdits(agent.deks[b], bs.staged);
      assert b in branches ==> BranchOk(store.files, known, branches, b);
      for i := 0 to |pairs|
        invariant agent.State() == old(agent.State()) && branches == old(branches)
        invariant drawn == old(drawn) + i
        invariant Intact(store.files) && Extends(old(store.files), store.files)
        invariant StagedMeans(store.files, key, staged, EditAll(edits, pairs[..i]))
      {
        ghost var before := store.files;
        var blobHash := EncryptAndStore(store, agent, b, pairs[i].1, drawn);
        assert blobHash.Ok?;
        StageValue(before, store.files, key, staged, edits, pairs, i, blobHash.value);
        drawn := drawn + 1;
        staged := staged[pairs[i].0 := Set(blobHash.value)];
      }
      assert pairs[..|pairs|] == pairs;
      StagingChanged(old(store.files), known, branches, store.files, b, staged, EditAll(edits, pairs));
      branches := branches[b := bs.(staged := staged)];
      return Ok(());
    }

    /** Stage a deletion for each key: no agent, no store. */
    method UnsetKeys(b: string, keys: seq<string>)
      requires Valid()
      modifies this`branches
      ensures Valid()
      ensures Plain() == (var p := PlainStateOf(old(Plain()), b);
                          old(Plain())[b := p.(edits := DropAll(p.edits, keys))])
      ensures branches == old(branches)[b := StateOf(old(branches), b).(staged := StateOf(branches, b).staged)]
    {
      var bs := StateOf(branches, b);
      var staged := bs.staged;
      ghost var key, edits := KeyOf(known, b), PlainEdits(KeyOf(known, b), bs.staged);
      assert b in branches ==> BranchOk(store.files, known, branches, b);
      for i := 0 to |keys|
        invariant branches == old(branches)
        invariant StagedMeans(store.files, key, staged, DropAll(edits, keys[..i]))
        invariant b in known || forall k | k in staged :: staged[k].Unset?
      {
        StageDrop(store.files, key, staged, edits, keys, i);
        staged := staged[keys[i] := Unset];
      }
      assert keys[..|keys|] == keys;
      StagingChanged(store.files, known, branches, store.files, b, staged, DropAll(edits, keys));
      branches := branches[b := bs.(staged := staged)];
    }

    // ---- Committing and forking -----------------------------------------------------------------

    /** Commit the effective working set on top of the tip and clear the staging area. */
    method CommitStaged(b: string, message: string, timestamp: int) returns (r: Result<Hash, CliError>)
      requires Valid()
      modifies this`branches, this`drawn, store, agent
      ensures Valid() && agent.State() == old(agent.State()) && Extends(old(store.files), store.files)
      ensures r.Ok? <==> Ready(b) && PlainStateOf(old(Plain()), b).edits != map[]
      ensures Plain() == if r.Err? then old(Plain())
                         else var p := PlainStateOf(old(Plain()), b);
                              old(Plain())[b := p.(committed := View(p), edits := map[])]
      ensures r.Ok? ==> Authored(r.value, user, message, timestamp)
      ensures branches == if r.Err? then old(branches)
                          else old(branches)[b := StateOf(old(branches), b).(staged := map[], tip := Some(r.value))]
      ensures r.Ok? ==>
                var tip := StateOf(old(branches), b).tip;
                   Commits(store.files, known[b], r.value, View(PlainStateOf(old(Plain()), b)),
                           if tip.Some? then [tip.value] else [], user)
    {
      if !Ready(b) {
        return Err(NotReady(b));
      }
      var bs := StateOf(branches, b);
      StagedIsEdits(known, branches, b);
      assert b in branches ==> BranchOk(store.files, known, branches, b);
      if bs.staged == map[] {
        return Err(NothingStaged);
      }
      var committed := CommitEffective(b, message, timestamp);
      NewTip(old(store.files), known, branches, store.files, b, committed, map[]);
      branches := branches[b := bs.(staged := map[], tip := Some(committed))];
      return Ok(committed);
    }

    /** A commit of the branch's effective values on top of its tip; the branch does not move yet. */
    method CommitEffective(b: string, message: string, timestamp: int) returns (h: Hash)
      requires Valid() && Ready(b)
      modifies this`drawn, store, agent
      ensures Intact(store.files) && Extends(old(store.files), store.files)
      ensures agent.State() == old(agent.State()) && drawn >= old(drawn)
      ensures TipOk(store.files, known, b, h)
      ensures Authored(h, user, message, timestamp)
      ensures var tip := StateOf(branches, b).tip;
              Commits(store.files, known[b], h, View(PlainStateOf(Plain(), b)),
                      if tip.Some? then [tip.value] else [], user)
    {
      var bs := StateOf(branches, b);
      assert b in branches ==> BranchOk(store.files, known, branches, b);
      var workingSet := EffectiveWorkingSet(b, bs.tip, bs.staged);
      assert workingSet.Ok?;
      var parents := if bs.tip.Some? then [bs.tip.value] else [];
      var committed := BuildAndSign(store, agent, b, user, parents, workingSet.value, message, timestamp, drawn);
      assert committed.Ok?;
      drawn := drawn + |workingSet.value|;
      return committed.value;
    }

    /** Create a branch under a fresh key. With a source, its committed values, encrypted again under
        the new key, become the first commit, recorded as the fork root. */
    method BranchCreate(name: string, from: Option<string>, timestamp: int) returns (r: Result<(), CliError>)
      requires Valid()
      modifies this`branches, this`drawn, this`known, store, agent
      ensures Valid() && Extends(old(store.files), store.files) && agent.identity == old(agent.identity)
      ensures r.Ok? <==>
                && name !in old(branches) && agent.identity.Some?
                && (from.None? || (agent.identity == Some(user)
                    && (from.value == name || from.value in old(agent.deks))))
      ensures known == if name in old(branches) || agent.identity.None? then old(known)
                else old(known)[name := old(drawn)]
      ensures agent.deks == if name in old(branches) || agent.identity.None? then old(agent.deks)
                            else old(agent.deks)[name := old(drawn)]
      ensures r.Err? ==> branches == old(branches)
      ensures r.Ok? ==> name in branches && branches == old(branches)[name := branches[name]]
      ensures r.Ok? && from.None? ==> branches[name] == NEW_BRANCH
      ensures r.Ok? && from.Some? ==>
                && branches[name].tip.Some?
                && branches[name] == NEW_BRANCH.(tip := branches[name].tip,
                                                 forkedFrom := Some(ForkedFrom(from.value, branches[name].tip.value)))
                && Authored(branches[name].tip.value, user, ForkMessage(from.value), timestamp)
      ensures Plain() == if r.Err? then old(Plain())
                         else old(Plain())[name := Forked(old(Plain()), from)]
    {
      if name in branches {
        return Err(BranchExists);
      }
      var generated := agent.HandleRequest(GenerateDek(name), drawn);
      if generated.Refused? {
        return Err(AgentRefused(generated.why));
      }
      drawn := drawn + 1;
      known := known[name := agent.deks[name]];
      if from.None? {
        BranchAdded(old(store.files), old(known), branches, store.files, known, name, NEW_BRANCH);
        branches := branches[name := NEW_BRANCH];
        return Ok(());
      }
      KeysElsewhere(store.files, old(known), branches, known, name);
      var root := ForkRoot(from.value, name, timestamp);
      if root.Err? {
        return Err(root.error);
      }
      var bs := NEW_BRANCH.(tip := Some(root.value), forkedFrom := Some(ForkedFrom(from.value, root.value)));
      BranchAdded(old(store.files), old(known), branches, store.files, known, name, bs);
      branches := branches[name := bs];
      return Ok(());
    }

    /** The first commit of a fork: the source's committed values under the new branch's key. */
    method ForkRoot(source: string, name: string, timestamp: int) returns (r: Result<Hash, CliError>)
      requires Valid() && name in agent.deks && name !in branches
      modifies this`drawn, store, agent
      ensures Valid() && agent.State() == old(agent.State()) && Extends(old(store.files), store.files)
      ensures r.Ok? <==> Ready(source)
      ensures r.Ok? ==> TipOk(store.files, known, name, r.value) && Parents(r.value) == []
      ensures r.Ok? ==> Authored(r.value, user, ForkMessage(source), timestamp)
      ensures r.Ok? ==> PlainOf(known[name], EntriesOf(r.value)) == PlainStateOf(Plain(), source).committed
    {
      if !Ready(source) {
        return Err(NotReady(source));
      }
      var sourceTip := StateOf(branches, source).tip;
      assert source in branches ==> BranchOk(store.files, known, branches, source);
      var workingSet := EffectiveWorkingSet(source, sourceTip, map[]);
      assert workingSet.Ok?;
      NoEdits(agent.deks[source], sourceTip);
      var root := BuildAndSign(store, agent, name, user, [], workingSet.value, ForkMessage(source), timestamp, drawn);
      assert root.Ok?;
      drawn := drawn + |workingSet.value|;
      StoreGrew(old(store.files), known, branches, store.files);
      return Ok(root.value);
    }
  }

  /** Noting a key's version changes neither what is readable nor what it means. */
  lemma VersionNoted(files: Files, deks: Deks, branches: Branches, b: string, version: nat)
    requires StateOk(files, deks, branches)
    ensures var branches' := branches[b := StateOf(branches, b).(dekVersion := version)];
            && StateOk(files, deks, branches')
            && Meaning(deks, branches') == Meaning(deks, branches)[b := PlainStateOf(Meaning(deks, branches), b)]
  {
    var bs := StateOf(branches, b);
    var branches' := branches[b := bs.(dekVersion := version)];
    assert b in branches ==> BranchOk(files, deks, branches, b);
    if bs.merge.Some? { PausedMergeUntouched(files, deks, branches, files, deks, branches', b, bs.merge.value); }
    OneBranchChanged(files, deks, branches, files, deks, branches', b);
    assert PlainBranchOf(deks, branches', b) == PlainStateOf(Meaning(deks, branches), b);
  }

  lemma StoreGrew(files: Files, deks: Deks, branches: Branches, files': Files)
    requires StateOk(files, deks, branches) && Intact(files') && Extends(files, files')
    ensures StateOk(files', deks, branches)
  {
    forall b | b in branches ensures BranchOk(files', deks, branches, b) {
      BranchUntouched(files, deks, branches, files', deks, branches, b);
    }
  }

  /** A new name with a record of its own joins the others. */
  lemma BranchAdded(
    files: Files, deks: Deks, branches: Branches, files': Files, deks': Deks, name: string, bs: BranchState)
    requires StateOk(files, deks, branches) && Intact(files') && Extends(files, files')
    requires name !in branches && name in deks' && deks' == deks[name := deks'[name]]
    requires bs.staged == map[] && bs.merge == None
    requires bs.tip.Some? ==> TipOk(files', deks', name, bs.tip.value)
    requires bs.forkedFrom.Some? ==> bs.tip == Some(bs.forkedFrom.value.root)
    ensures var branches' := branches[name := bs];
            && StateOk(files', deks', branches')
            && Meaning(deks', branches') == Meaning(deks, branches)[name := PlainBranch(
                 PlainTip(deks'[name], bs.tip), map[],
                 if bs.forkedFrom.Some?
                 then Some(PlainFork(bs.forkedFrom.value.branch, PlainTip(deks'[name], bs.tip)))
                 else None,
                 None)]
  {
    assert PlainEdits(deks'[name], map[]) == map[];
    OneBranchChanged(files, deks, branches, files', deks', branches[name := bs], name);
  }

  /** The branch a fork creates: the source's committed map, both as its content and as fork record. */
  ghost function Forked(s: PlainState, from: Option<string>): PlainBranch {
    if from.None? then NEW_PLAIN_BRANCH
    else
      var c := PlainStateOf(s, from.value).committed;
      PlainBranch(c, map[], Some(PlainFork(from.value, c)), None)
  }

  lemma NoEdits(key: KeyId, tip: Option<Hash>)
    ensures Patch(PlainEdits(key, map[]), PlainTip(key, tip)) == PlainTip(key, tip)
  {}

  /** Binding a key to a name no branch has yet changes no branch. */
  lemma KeysElsewhere(files: Files, deks: Deks, branches: Branches, deks': Deks, name: string)
    requires StateOk(files, deks, branches) && name !in branches
    requires deks' == deks[name := KeyOf(deks', name)]
    ensures StateOk(files, deks', branches) && Meaning(deks', branches) == Meaning(deks, branches)
  {
    forall b | b in branches
      ensures BranchOk(files, deks', branches, b)
                && PlainBranchOf(deks', branches, b) == PlainBranchOf(deks, branches, b)
    {
      BranchUntouched(files, deks, branches, files, deks', branches, b);
    }
  }

  lemma StagedIsEdits(deks: Deks, branches: Branches, b: string)
    ensures StateOf(branches, b).staged == map[] <==> PlainStateOf(Meaning(deks, branches), b).edits == map[]
  {}

  /** A branch's tip and staging may be replaced by a new readable commit and a smaller staging. */
  lemma NewTip(
    files: Files, deks: Deks, branches: Branches, files': Files, b: string, tip: Hash, staged: map<string, StagedEntry>)
    requires StateOk(files, deks, branches) && Intact(files') && Extends(files, files')
    requires TipOk(files', deks, b, tip)
    requires staged == map[] || staged == StateOf(branches, b).staged
    ensures var branches' := branches[b := StateOf(branches, b).(staged := staged, tip := Some(tip))];
            && StateOk(files', deks, branches')
            && Meaning(deks, branches') == Meaning(deks, branches)[b :=
                 PlainStateOf(Meaning(deks, branches), b).(
                   committed := PlainOf(deks[b], EntriesOf(tip)), edits := PlainEdits(deks[b], staged))]
  {
    var bs := StateOf(branches, b);
    var branches' := branches[b := bs.(staged := staged, tip := Some(tip))];
    assert b in branches ==> BranchOk(files, deks, branches, b);
    if bs.forkedFrom.Some? { TipOkMonotone(files, deks, files', deks, b, bs.forkedFrom.value.root); }
    if bs.merge.Some? { PausedMergeUntouched(files, deks, branches, files', deks, branches', b, bs.merge.value); }
    OneBranchChanged(files, deks, branches, files', deks, branches', b);
  }

  /** Staged values stored and readable under the branch's key, meaning `edits`. */
  ghost predicate StagedMeans(
    files: Files, key: KeyId, staged: map<string, StagedEntry>, edits: map<string, Option<string>>)
  {
    && (forall k | k in staged && staged[k].Set? :: Holds(files, staged[k].hash) && Opens(key, staged[k].hash).Some?)
    && PlainEdits(key, staged) == edits
  }

  lemma StageValue(
    before: Files, files: Files, key: KeyId, staged: map<string, StagedEntry>, edits: map<string, Option<string>>,
    pairs: seq<(string, string)>, n: nat, h: Hash)
    requires n < |pairs| && Extends(before, files) && StagedMeans(before, key, staged, EditAll(edits, pairs[..n]))
    requires Holds(files, h) && Opens(key, h) == Some(pairs[n].1)
    ensures StagedMeans(files, key, staged[pairs[n].0 := Set(h)], EditAll(edits, pairs[..n + 1]))
  {
    assert pairs[..n + 1][..n] == pairs[..n];
  }

  lemma StageDrop(
    files: Files, key: KeyId, staged: map<string, StagedEntry>, edits: map<string, Option<string>>, keys: seq<string>,
    n: nat)
    requires n < |keys| && StagedMeans(files, key, staged, DropAll(edits, keys[..n]))
    ensures StagedMeans(files, key, staged[keys[n] := Unset], DropAll(edits, keys[..n + 1]))
  {
    assert keys[..n + 1][..n] == keys[..n];
  }

  /** A branch's record may be replaced by one whose staging means other edits. */
  lemma StagingChanged(
    files: Files, deks: Deks, branches: Branches, files': Files, b: string,
    staged: map<string, StagedEntry>, edits: map<string, Option<string>>)
    requires StateOk(files, deks, branches) && Intact(files') && Extends(files, files')
    requires StagedMeans(files', KeyOf(deks, b), staged, edits)
    requires b in deks || forall k | k in staged :: staged[k].Unset?
    ensures var branches' := branches[b := StateOf(branches, b).(staged := staged)];
            && StateOk(files', deks, branches')
            && Meaning(deks, branches') == Meaning(deks, branches)[b :=
                PlainStateOf(Meaning(deks, branches), b).(edits := edits)]
  {
    var bs := StateOf(branches, b);
    var branches' := branches[b := bs.(staged := staged)];
    if bs.tip.Some? { TipOkMonotone(files, deks, files', deks, b, bs.tip.value); }
    if bs.forkedFrom.Some? { TipOkMonotone(files, deks, files', deks, b, bs.forkedFrom.value.root); }
    if bs.merge.Some? { PausedMergeUntouched(files, deks, branches, files', deks, branches', b, bs.merge.value); }
    OneBranchChanged(files, deks, branches, files', deks, branches', b);
  }

  ghost predicate DecryptedSoFar(
    files: Files, key: KeyId, entries: map<string, Hash>, keys: seq<string>, plain: Plain)
  {
    && (forall k :: k in plain <==> k in keys)
    && (forall k | k in keys :: k in entries && Holds(files, entries[k]) && Opens(key, entries[k]) == Some(plain[k]))
  }

  lemma DecryptedMore(
    files: Files, key: KeyId, entries: map<string, Hash>, keys: seq<string>, n: nat, plain: Plain, value: string)
    requires n < |keys| && DecryptedSoFar(files, key, entries, keys[..n], plain)
    requires keys[n] in entries && Holds(files, entries[keys[n]]) && Opens(key, entries[keys[n]]) == Some(value)
    ensures DecryptedSoFar(files, key, entries, keys[..n + 1], plain[keys[n] := value])
  {}

  lemma AllDecrypted(files: Files, key: KeyId, entries: map<string, Hash>, plain: Plain)
    requires DecryptedSoFar(files, key, entries, SortedKeys(entries.Keys), plain)
    ensures BlobsOpen(files, key, entries) && plain == PlainOf(key, entries)
  {}

  /** Everything an effective read touches is stored and opens under the key. */
  ghost predicate Effective(files: Files, key: KeyId, tip: Option<Hash>, staged: map<string, StagedEntry>) {
    && (tip.Some? ==> Readable(files, key, tip.value))
    && forall k | k in staged && staged[k].Set? :: Holds(files, staged[k].hash) && Opens(key, staged[k].hash).Some?
  }

  /** The staged entries of `keys` have been applied to the committed values. */
  ghost predicate Overlaid(
    files: Files, key: KeyId, staged: map<string, StagedEntry>, keys: seq<string>, committed: Plain, plain: Plain)
  {
    && (forall k | k in keys && k in staged && staged[k].Set? ::
        Holds(files, staged[k].hash) && Opens(key, staged[k].hash).Some?)
    && forall k :: Get(plain, k) == if k in keys && k in staged then PlainStaged(key, staged[k]) else Get(committed, k)
  }

  lemma OverlayNext(
    files: Files, key: KeyId, staged: map<string, StagedEntry>, keys: seq<string>, n: nat, committed: Plain,
    plain: Plain)
    requires n < |keys| && keys[n] in staged && Overlaid(files, key, staged, keys[..n], committed, plain)
    ensures staged[keys[n]].Set? && Holds(files, staged[keys[n]].hash) && Opens(key, staged[keys[n]].hash).Some? ==>
              Overlaid(files, key, staged, keys[..n + 1], committed,
                plain[keys[n] := Opens(key, staged[keys[n]].hash).value])
    ensures staged[keys[n]].Unset? ==> Overlaid(files, key, staged, keys[..n + 1], committed, plain - {keys[n]})
  {}

  lemma OverlayEnds(
    files: Files, key: KeyId, staged: map<string, StagedEntry>, keys: seq<string>, committed: Plain, plain: Plain)
    requires keys == SortedKeys(staged.Keys) && Overlaid(files, key, staged, keys[..|keys|], committed, plain)
    ensures forall k | k in staged && staged[k].Set? :: Holds(files, staged[k].hash) && Opens(key, staged[k].hash).Some?
    ensures plain == Patch(PlainEdits(key, staged), committed)
  {
    assert keys[..|keys|] == keys;
    OverlayIsPatch(key, staged, committed, plain);
  }

  lemma OverlayIsPatch(key: KeyId, staged: map<string, StagedEntry>, committed: Plain, plain: Plain)
    requires forall k :: Get(plain, k) == if k in staged then PlainStaged(key, staged[k]) else Get(committed, k)
    ensures plain == Patch(PlainEdits(key, staged), committed)
  {}

  /** The tree a commit points at; unlike a verified load it accepts any encoding of the commit. */
  function TreeOfCommit(files: Files, h: Hash): (r: Result<Tree, CliError>)
    ensures r.Ok? <==>
              && Holds(files, h) && CommitFromBytes(h.bytes).Some?
              && (var t := CommitFromBytes(h.bytes).value.fields.treeHash;
                  Holds(files, t) && TreeFromBytes(t.bytes).Some?)
    ensures r.Ok? ==> r.value.entries == EntriesOf(h)
  {
    match Lookup(files, h)
    case Err(_) => Err(CannotRead(h))
    case Ok(None) => Err(CannotRead(h))
    case Ok(Some(bytes)) =>
      match CommitFromBytes(bytes)
      case None => Err(CannotRead(h))
      case Some(commit) =>
        match LoadTree(files, commit.fields.treeHash)
        case Err(_) => Err(CannotRead(commit.fields.treeHash))
        case Ok(tree) => Ok(tree)
  }
}
