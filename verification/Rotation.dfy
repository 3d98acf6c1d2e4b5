// Key rotation: commit the tip's values again under a fresh key, seal that key for every member,
// apply objects, sealed keys and version on the server in one transaction, then switch over.
module Rotation {
  import opened Wrappers
  import opened Crypto
  import opened Objects
  import opened History
  import opened Vcs
  import opened Server
  import opened Push
  import opened Agent
  import opened CommitBuilder
  import opened LocalState
  import opened Workspace

  datatype RotationError = Failed(cause: CliError) | NoSuchBranch | ServerRejected(why: ApiError)

  function Digits(n: nat): string {
    if n < 10 then ["0123456789"[n]] else Digits(n / 10) + ["0123456789"[n % 10]]
  }

  /** The number that decimal digits spell. */
  function ValueOf(digits: string): nat {
    if digits == "" then 0
    else
      var last := digits[|digits| - 1];
      10 * ValueOf(digits[..|digits| - 1]) + if '0' <= last <= '9' then last as int - '0' as int else 0
  }

  /** The digits are those of the number. */
  lemma {:induction false} DigitsSpell(n: nat)
    ensures Digits(n) != "" && ValueOf(Digits(n)) == n
    decreases n
  {
    assert "0123456789"[n % 10] as int == '0' as int + n % 10;
    if n >= 10 {
      DigitsSpell(n / 10);
      assert Digits(n)[..|Digits(n)| - 1] == Digits(n / 10);
    } else {
      assert Digits(n)[..0] == "";
    }
  }

  /** Each version has a context of its own. */
  lemma TempContextsDiffer(b: string, v: nat, u: nat)
    requires TempContext(b, v) == TempContext(b, u)
    ensures v == u
  {
    DigitsSpell(v);
    DigitsSpell(u);
    var n := |b + "::rotate::"|;
    assert TempContext(b, v)[n..] == Digits(v) && TempContext(b, u)[n..] == Digits(u);
  }

  /** The context the new key is staged under while the old one is still needed. */
  function TempContext(b: string, version: nat): string {
    b + "::rotate::" + Digits(version)
  }

  ghost function Listed(members: seq<PersonId>): set<PersonId> {
    set m | m in members
  }

  /** A sealed copy of the new key for each listed member, each opening to that key for its member. */
  ghost predicate SealedForAll(grants: seq<Grant>, members: seq<PersonId>, version: nat, key: KeyId) {
    && |grants| == |members|
    && forall i | 0 <= i < |members| :: grants[i] == Grant(members[i], version, WrapDek(key, members[i]))
  }

  lemma {:induction false} GrantedToAll(
    wrapped: map<Wrapped, SealedDek>, b: string, grants: seq<Grant>, members: seq<PersonId>, version: nat, key: KeyId,
    m: PersonId)
    requires SealedForAll(grants, members, version, key)
    requires m in members || (Wrapped(b, m, version) in wrapped && wrapped[Wrapped(b, m, version)] == WrapDek(key, m))
    ensures var after := GrantAll(wrapped, b, grants);
            Wrapped(b, m, version) in after && UnwrapDek(after[Wrapped(b, m, version)], m) == Some(key)
    decreases |grants|
  {
    if grants != [] {
      var next := wrapped[Wrapped(b, members[0], version) := WrapDek(key, members[0])];
      assert members == [members[0]] + members[1..];
      GrantedToAll(next, b, grants[1..], members[1..], version, key, m);
    }
  }

  /** No sealed box on the server gives this person this key. */
  ghost predicate NoBox(wrapped: map<Wrapped, SealedDek>, key: KeyId, p: PersonId) {
    forall x | x in wrapped :: UnwrapDek(wrapped[x], p) != Some(key)
  }

  lemma {:induction false} UnlistedGetsNoBox(
    wrapped: map<Wrapped, SealedDek>, b: string, grants: seq<Grant>, members: seq<PersonId>, version: nat, key: KeyId,
    p: PersonId)
    requires SealedForAll(grants, members, version, key) && p !in members && NoBox(wrapped, key, p)
    ensures NoBox(GrantAll(wrapped, b, grants), key, p)
    decreases |grants|
  {
    if grants != [] {
      var next := wrapped[Wrapped(b, members[0], version) := WrapDek(key, members[0])];
      assert members[0] in members && forall m | m in members[1..] :: m in members;
      UnlistedGetsNoBox(next, b, grants[1..], members[1..], version, key, p);
    }
  }

  /** With every key this person can get out of the server's boxes, no value of the tip opens. */
  ghost predicate CannotRead(wrapped: map<Wrapped, SealedDek>, p: PersonId, tip: Hash) {
    forall x, k | x in wrapped && k in EntriesOf(tip) && UnwrapDek(wrapped[x], p).Some? ::
      Opens(UnwrapDek(wrapped[x], p).value, EntriesOf(tip)[k]).None?
  }

  /** Everybody who is not a listed member is shut out of the tip. */
  ghost predicate ShutsOut(after: map<Wrapped, SealedDek>, listed: set<PersonId>, tip: Hash) {
    forall p | p !in listed :: CannotRead(after, p, tip)
  }

  /** The server's boxes hold only keys drawn before the next one: what makes that one fresh. */
  ghost predicate BoxesBelow(wrapped: map<Wrapped, SealedDek>, drawn: nat) {
    forall x | x in wrapped && wrapped[x].Box? :: wrapped[x].dek < drawn
  }

  lemma {:induction false} BoxesStayBelow(
    wrapped: map<Wrapped, SealedDek>, b: string, grants: seq<Grant>, members: seq<PersonId>, version: nat, key: KeyId,
    drawn: nat)
    requires SealedForAll(grants, members, version, key) && key < drawn && BoxesBelow(wrapped, drawn)
    ensures BoxesBelow(GrantAll(wrapped, b, grants), drawn)
    decreases |grants|
  {
    if grants != [] {
      BoxesStayBelow(wrapped[Wrapped(b, members[0], version) := WrapDek(key, members[0])], b, grants[1..],
        members[1..], version, key, drawn);
    }
  }

  /** Revocation: a rotation shuts out whoever was taken off the list before it, whatever boxes that
      person still has. */
  lemma RotationShutsOut(
    files: Files, oldKey: KeyId, newKey: KeyId, oldTip: Option<Hash>, newTip: Hash, person: PersonId,
    wrapped: map<Wrapped, SealedDek>, b: string, grants: seq<Grant>, members: seq<PersonId>, version: nat)
    requires Rotated(files, oldKey, newKey, oldTip, newTip, person) && SealedForAll(grants, members, version, newKey)
    requires BoxesBelow(wrapped, newKey)
    ensures ShutsOut(GrantAll(wrapped, b, grants), Listed(members), newTip)
  {
    forall p | p !in members ensures CannotRead(GrantAll(wrapped, b, grants), p, newTip) {
      UnlistedGetsNoBox(wrapped, b, grants, members, version, newKey, p);
      OnlyTheNewKeyReads(files, newKey, newTip, GrantAll(wrapped, b, grants), p);
    }
  }

  lemma OnlyTheNewKeyReads(files: Files, key: KeyId, tip: Hash, wrapped: map<Wrapped, SealedDek>, p: PersonId)
    requires Readable(files, key, tip) && NoBox(wrapped, key, p)
    ensures CannotRead(wrapped, p, tip)
  {}

  /** Seal the new key for every member, remembering the rotator's own box. */
  method WrapForMembers(w: Workspace, context: string, members: seq<PersonId>, version: nat, user: PersonId)
    returns (grants: seq<Grant>, own: Option<SealedDek>)
    requires context in w.agent.deks && w.agent.identity.Some?
    modifies w.agent
    ensures w.agent.State() == old(w.agent.State())
    ensures SealedForAll(grants, members, version, w.agent.deks[context])
    ensures own == if user in members then Some(WrapDek(w.agent.deks[context], user)) else None
  {
    grants, own := [], None;
    for i := 0 to |members|
      invariant w.agent.State() == old(w.agent.State())
      invariant SealedForAll(grants, members[..i], version, w.agent.deks[context])
      invariant own == if user in members[..i] then Some(WrapDek(w.agent.deks[context], user)) else None
    {
      assert members[..i + 1] == members[..i] + [members[i]];
      var response := w.agent.HandleRequest(WrapDekForRecipient(context, members[i]), 0);
      if members[i] == user {
        own := Some(response.sealedBox);
      }
      grants := grants + [Grant(members[i], version, response.sealedBox)];
    }
    assert members[..|members|] == members;
  }

  method ObjectsForUpload(store: LocalObjectStore, hashes: seq<Hash>) returns (batch: seq<Upload>)
    requires Intact(store.files) && forall h | h in hashes :: h in store.files
    ensures |batch| == |hashes| && forall i | 0 <= i < |batch| :: batch[i].hash == hashes[i] && Acceptable(batch[i])
  {
    batch := [];
    for i := 0 to |hashes|
      invariant |batch| == i && forall j | 0 <= j < i :: batch[j].hash == hashes[j] && Acceptable(batch[j])
    {
      assert hashes[i] in hashes;
      var bytes := store.Get(hashes[i]);
      assert bytes.Ok? && bytes.value.Some?;
      batch := batch + [Upload(hashes[i], SniffKind(bytes.value.value), bytes.value.value)];
    }
  }

  /** No blob of a tree written under one key opens under another. */
  lemma OldKeyIsShutOut(files: Files, key: KeyId, other: KeyId, tip: Hash)
    requires Readable(files, key, tip) && other != key
    ensures forall k | k in EntriesOf(tip) :: Opens(other, EntriesOf(tip)[k]).None?
    ensures Readable(files, other, tip) <==> EntriesOf(tip) == map[]
  {
    assert EntriesOf(tip) == map[] <==> forall k :: k !in EntriesOf(tip);
  }

  /** What a rotation that the server accepted has done. */
  ghost predicate Rotated(
    files: Files, oldKey: KeyId, newKey: KeyId, oldTip: Option<Hash>, newTip: Hash, person: PersonId)
  {
    && newKey != oldKey
    && Commits(files, newKey, newTip, PlainTip(oldKey, oldTip), if oldTip.Some? then [oldTip.value] else [], person)
    && (forall k | k in EntriesOf(newTip) :: Opens(oldKey, EntriesOf(newTip)[k]).None?)
    && Sound(files, newTip)
  }

  /** Re-encrypt the committed tip under the key staged in the temporary context. */
  method Reencrypt(w: Workspace, b: string, temp: string, timestamp: int) returns (newTip: Hash)
    requires w.Valid() && w.Ready(b) && w.Ready(temp) && w.known[temp] != w.known[b]
    modifies w`drawn, w.store, w.agent
    ensures w.Valid() && w.agent.State() == old(w.agent.State()) && Extends(old(w.store.files), w.store.files)
    ensures w.drawn >= old(w.drawn)
    ensures Authored(newTip, w.user, "key rotation", timestamp)
    ensures Rotated(w.store.files, w.known[b], w.known[temp], StateOf(w.branches, b).tip, newTip, w.user)
  {
    var oldTip := StateOf(w.branches, b).tip;
    assert b in w.branches ==> BranchOk(w.store.files, w.known, w.branches, b);
    var workingSet := w.EffectiveWorkingSet(b, oldTip, map[]);
    assert workingSet.Ok?;
    NoEdits(w.known[b], oldTip);
    var parents := if oldTip.Some? then [oldTip.value] else [];
    var committed :=
      BuildAndSign(w.store, w.agent, temp, w.user, parents, workingSet.value, "key rotation", timestamp, w.drawn);
    assert committed.Ok?;
    newTip := committed.value;
    w.drawn := w.drawn + |workingSet.value|;
    StoreGrew(old(w.store.files), w.known, w.branches, w.store.files);
    OldKeyIsShutOut(w.store.files, w.known[temp], w.known[b], newTip);
  }

  /** The uploads for a new tip: all of its history that the old tip does not already reach. */
  method BuildBatch(w: Workspace, newTip: Hash, oldTip: Option<Hash>) returns (batch: seq<Upload>)
    requires Intact(w.store.files) && Sound(w.store.files, newTip)
    ensures forall u | u in batch :: Acceptable(u)
    ensures forall h | h in Reach(newTip) :: h in Beyond(oldTip) || exists u | u in batch :: u.hash == h
  {
    var hashes := CollectObjectsToPush(w.store, newTip, oldTip);
    SoundAhead(w.store.files, newTip, oldTip);
    PushCovers(w.store.files, newTip, oldTip, hashes.value);
    batch := ObjectsForUpload(w.store, hashes.value);
    forall h | h in Reach(newTip) && h !in Beyond(oldTip) ensures exists u | u in batch :: u.hash == h {
      var i :| 0 <= i < |hashes.value| && hashes.value[i] == h;
      assert batch[i] in batch;
    }
  }

  lemma BatchCompletesTip(before: Files, batch: seq<Upload>, newTip: Hash, oldTip: Option<Hash>)
    requires Intact(before) && forall u | u in batch :: Acceptable(u)
    requires forall h | h in Reach(newTip) :: h in Beyond(oldTip) || exists u | u in batch :: u.hash == h
    requires oldTip.Some? ==> Complete(before, oldTip.value)
    ensures Complete(InsertAll(before, batch), newTip)
  {
    InsertAllGrows(before, batch);
  }

  /** Draw a fresh key under the temporary context; no branch uses that name. */
  method StageNewKey(w: Workspace, b: string, temp: string)
    requires w.Valid() && w.Ready(b) && temp != b && temp !in w.branches
    modifies w`drawn, w`known, w.agent
    ensures w.Valid() && w.Ready(b) && w.Ready(temp) && w.drawn > old(w.drawn)
    ensures w.agent.identity == old(w.agent.identity) && w.agent.deks == old(w.agent.deks)[temp := old(w.drawn)]
    ensures w.known == old(w.known)[temp := old(w.drawn)]
    ensures w.Plain() == old(w.Plain())
  {
    var response := w.agent.HandleRequest(GenerateDek(temp), w.drawn);
    w.known := w.known[temp := w.drawn];
    w.drawn := w.drawn + 1;
    KeysElsewhere(w.store.files, old(w.known), w.branches, w.known, temp);
  }

  /** What a rotator brings to the server: the commit, the sealed copies and the upload batch. */
  datatype Prepared = Prepared(newTip: Hash, grants: seq<Grant>, own: Option<SealedDek>, batch: seq<Upload>)

  ghost predicate ReadyToSend(
    p: Prepared, files: Files, oldKey: KeyId, newKey: KeyId, oldTip: Option<Hash>, members: seq<PersonId>, version: nat,
    user: PersonId)
  {
    && Rotated(files, oldKey, newKey, oldTip, p.newTip, user)
    && SealedForAll(p.grants, members, version, newKey)
    && p.own == (if user in members then Some(WrapDek(newKey, user)) else None)
    && (forall u | u in p.batch :: Acceptable(u))
    && forall h | h in Reach(p.newTip) :: h in Beyond(oldTip) || exists u | u in p.batch :: u.hash == h
  }

  /** Everything a rotation makes before it asks the server. */
  method PrepareRotation(w: Workspace, b: string, temp: string, members: seq<PersonId>, version: nat, timestamp: int)
    returns (p: Prepared)
    requires w.Valid() && w.Ready(b) && temp != b && temp !in w.branches
    modifies w`drawn, w`known, w.store, w.agent
    ensures w.Valid() && w.Ready(b) && Extends(old(w.store.files), w.store.files) && w.Plain() == old(w.Plain())
    ensures w.drawn > old(w.drawn)
    ensures w.agent.identity == old(w.agent.identity) && w.agent.deks == old(w.agent.deks)[temp := old(w.drawn)]
    ensures w.known == old(w.known)[temp := old(w.drawn)]
    ensures Authored(p.newTip, w.user, "key rotation", timestamp)
    ensures ReadyToSend(
              p, w.store.files, w.known[b], old(w.drawn), StateOf(w.branches, b).tip, members, version, w.user)
  {
    StageNewKey(w, b, temp);
    var newTip := Reencrypt(w, b, temp, timestamp);
    var grants, own := WrapForMembers(w, temp, members, version, w.user);
    var batch := BuildBatch(w, newTip, StateOf(w.branches, b).tip);
    return Prepared(newTip, grants, own, batch);
  }

  // ---- The whole rotation -----------------------------------------------------------------------

  /** The rotator's side of an accepted rotation: the tip and its version move on, the branch's key is
      the new one, and the cache holds it under the branch if the rotator has a copy. */
  ghost predicate SwitchedOver(
    known: Deks, deks: Deks, branches: Branches, known': Deks, deks': Deks, branches': Branches,
    b: string, newKey: KeyId, newTip: Hash, version: nat, listed: bool)
  {
    && branches' == branches[b := StateOf(branches, b).(tip := Some(newTip), dekVersion := version)]
    && known' == known[b := newKey]
    && b in deks && deks' == deks[b := if listed then newKey else deks[b]]
  }

  /** The server's side: every member, and nobody else, can get at the new tip, whose history is there
      if the old tip's was. */
  ghost predicate ServerRotated(
    objects: Files, objects': Files, wrapped': map<Wrapped, SealedDek>, b: string, listed: set<PersonId>, version: nat,
    newKey: KeyId, oldTip: Option<Hash>, newTip: Hash)
  {
    && (forall m | m in listed ::
          Wrapped(b, m, version) in wrapped' && UnwrapDek(wrapped'[Wrapped(b, m, version)], m) == Some(newKey))
    && ShutsOut(wrapped', listed, newTip)
    && Extends(objects, objects') && Intact(objects')
    && ((oldTip.Some? ==> Complete(objects, oldTip.value)) ==> Complete(objects', newTip))
  }

  /** Rotate a branch's key. Afterwards the workspace is in order exactly when nothing was pending under
      the old key and the rotator is a member; then it means on every branch what it meant before. */
  method PerformRotation(w: Workspace, server: Server, b: string, timestamp: int)
    returns (r: Result<Hash, RotationError>)
    requires w.Valid() && w.Ready(b)
    requires b in server.versions ==> TempContext(b, server.versions[b] + 1) !in w.branches
    requires Intact(server.objects) && BoxesBelow(server.wrapped, w.drawn)
    modifies w`branches, w`drawn, w`known, w.store, w.agent, server`objects, server`wrapped, server`versions
    ensures Intact(w.store.files) && Extends(old(w.store.files), w.store.files)
    ensures BoxesBelow(server.wrapped, w.drawn)
    ensures r.Ok? <==> b in old(server.versions)
    ensures r.Err? ==>
              && w.Valid() && w.Plain() == old(w.Plain()) && w.branches == old(w.branches)
              && w.Ready(b) && w.known[b] == old(w.known)[b]
              && server.objects == old(server.objects) && server.wrapped == old(server.wrapped)
              && server.versions == old(server.versions)
    ensures r.Ok? ==>
              var oldKey, newKey, oldTip := old(w.known)[b], old(w.drawn), StateOf(old(w.branches), b).tip;
              var listed := set u | u in server.users && Membership(b, u) in server.members;
              var version := old(server.versions)[b] + 1;
              && Rotated(w.store.files, oldKey, newKey, oldTip, r.value, w.user)
              && Authored(r.value, w.user, "key rotation", timestamp)
              && SwitchedOver(old(w.known)[TempContext(b, version) := newKey],
                              old(w.agent.deks)[TempContext(b, version) := newKey], old(w.branches),
                              w.known, w.agent.deks, w.branches, b, newKey, r.value, version, w.user in listed)
              && ServerRotated(old(server.objects), server.objects, server.wrapped, b, listed, version, newKey,
                  oldTip, r.value)
              && server.versions == old(server.versions)[b := version]
    ensures r.Ok? ==>
              && (w.Valid() <==>
                    Quiet(old(w.branches), b) && w.user in server.users && Membership(b, w.user) in server.members)
              && (w.Valid() ==> w.Plain() == old(w.Plain())[b := PlainStateOf(old(w.Plain()), b)])
  {
    if b !in server.versions {
      return Err(NoSuchBranch);
    }
    var members, version := server.ListMembers(b), server.versions[b] + 1;
    ghost var listed := set u | u in server.users && Membership(b, u) in server.members;
    assert Listed(members) == listed;
    var temp := TempContext(b, version);
    assert |temp| > |b|;
    var p := PrepareRotation(w, b, temp, members, version, timestamp);
    r := ApplyRotation(w, server, b, p, members, version, old(w.drawn));
  }

  /** Revocation: take somebody off the list, then rotate. Whether the rotation goes through or not, they are
      off; if it does, no value of the new tip opens with any key they can get out of the server's boxes. */
  method Revoke(w: Workspace, server: Server, b: string, target: PersonId, timestamp: int)
    returns (r: Result<Hash, RotationError>)
    requires w.Valid() && w.Ready(b)
    requires b in server.versions ==> TempContext(b, server.versions[b] + 1) !in w.branches
    requires Intact(server.objects) && BoxesBelow(server.wrapped, w.drawn)
    modifies w`branches, w`drawn, w`known, w.store, w.agent
    modifies server`objects, server`wrapped, server`versions, server`members
    ensures server.members == old(server.members) - {Membership(b, target)}
    ensures r.Ok? <==> b in old(server.versions)
    ensures r.Ok? ==> CannotRead(server.wrapped, target, r.value)
    ensures r.Ok? ==>
              PlainTip(old(w.drawn), Some(r.value)) == PlainTip(old(w.known)[b], StateOf(old(w.branches), b).tip)
    ensures r.Ok? ==> forall m | m in server.users && Membership(b, m) in server.members ::
              var x := Wrapped(b, m, old(server.versions)[b] + 1);
              x in server.wrapped && UnwrapDek(server.wrapped[x], m) == Some(old(w.drawn))
  {
    server.RemoveMember(b, target);
    ghost var oldKey, oldTip := w.known[b], StateOf(w.branches, b).tip;
    r := PerformRotation(w, server, b, timestamp);
    if r.Ok? {
      CommittedMapSurvives(w.store.files, oldKey, old(w.drawn), oldTip, r.value, w.user);
    }
  }

  /** Ask the server to apply what was prepared, and switch over once it has. */
  method ApplyRotation(
    w: Workspace, server: Server, b: string, p: Prepared, members: seq<PersonId>, version: nat, ghost newKey: KeyId)
    returns (r: Result<Hash, RotationError>)
    requires w.Valid() && w.Ready(b) && newKey < w.drawn
    requires ReadyToSend(
               p, w.store.files, w.known[b], newKey, StateOf(w.branches, b).tip, members, version, w.user)
    requires Intact(server.objects) && BoxesBelow(server.wrapped, newKey)
    modifies w`branches, w`known, w.agent, server`objects, server`wrapped, server`versions
    ensures BoxesBelow(server.wrapped, w.drawn)
    ensures (r.Ok? <==> forall m | m in members :: m in server.users) && (r.Ok? ==> r.value == p.newTip)
    ensures r.Err? ==>
              && w.Valid() && w.known == old(w.known) && w.branches == old(w.branches)
              && w.agent.State() == old(w.agent.State())
              && server.objects == old(server.objects) && server.wrapped == old(server.wrapped)
              && server.versions == old(server.versions)
    ensures r.Ok? ==>
              && SwitchedOver(old(w.known), old(w.agent.deks), old(w.branches), w.known, w.agent.deks, w.branches,
                              b, newKey, p.newTip, version, w.user in members)
              && ServerRotated(old(server.objects), server.objects, server.wrapped, b, Listed(members), version,
                               newKey, StateOf(old(w.branches), b).tip, p.newTip)
              && server.versions == old(server.versions)[b := version]
    ensures r.Ok? ==>
              && (w.Valid() <==> Quiet(old(w.branches), b) && w.user in members)
              && (w.Valid() ==> w.Plain() == old(w.Plain())[b := PlainStateOf(old(w.Plain()), b)])
  {
    var accepted := SendRotation(server, b, version, p, members, w.store.files, w.known[b], newKey, w.drawn,
                                 StateOf(w.branches, b).tip, w.user);
    if accepted.Err? {
      return Err(ServerRejected(accepted.error));
    }
    SwitchOver(w, b, p.own, p.newTip, version, newKey);
    return Ok(p.newTip);
  }

  /** Hand the prepared rotation to the server. */
  method SendRotation(
    server: Server, b: string, version: nat, p: Prepared, members: seq<PersonId>, ghost files: Files,
    ghost oldKey: KeyId,
    ghost newKey: KeyId, ghost drawn: nat, ghost oldTip: Option<Hash>, ghost user: PersonId)
    returns (r: Result<(), ApiError>)
    requires ReadyToSend(p, files, oldKey, newKey, oldTip, members, version, user)
    requires Intact(server.objects) && BoxesBelow(server.wrapped, newKey) && newKey < drawn
    modifies server`objects, server`wrapped, server`versions
    ensures BoxesBelow(server.wrapped, drawn)
    ensures r.Ok? <==> forall m | m in members :: m in server.users
    ensures r.Err? ==> server.objects == old(server.objects) && server.wrapped == old(server.wrapped)
                       && server.versions == old(server.versions)
    ensures r.Ok? ==>
              && ServerRotated(old(server.objects), server.objects, server.wrapped, b, Listed(members), version, newKey,
                  oldTip, p.newTip)
              && server.versions == old(server.versions)[b := version]
  {
    AcceptedMeans(server.objects, server.wrapped, b, p.batch, p.grants, members, version, newKey, p.newTip, oldTip);
    RotationShutsOut(files, oldKey, newKey, oldTip, p.newTip, user, server.wrapped, b, p.grants, members, version);
    BoxesStayBelow(server.wrapped, b, p.grants, members, version, newKey, drawn);
    GrantsNameMembers(p.grants, members, version, newKey, server.users);
    r := server.Rotate(b, version, p.batch, p.grants);
  }

  /** Advance the tip and swap the cached key of the branch for the new one, if the rotator has a copy. */
  method SwitchOver(w: Workspace, b: string, own: Option<SealedDek>, newTip: Hash, version: nat, ghost newKey: KeyId)
    requires w.Valid() && w.Ready(b) && newKey < w.drawn
    requires Rotated(w.store.files, w.known[b], newKey, StateOf(w.branches, b).tip, newTip, w.user)
    requires own.Some? ==> UnwrapDek(own.value, w.user) == Some(newKey)
    modifies w`branches, w`known, w.agent
    ensures SwitchedOver(old(w.known), old(w.agent.deks), old(w.branches), w.known, w.agent.deks, w.branches,
                         b, newKey, newTip, version, own.Some?)
    ensures w.Valid() <==> Quiet(old(w.branches), b) && own.Some?
    ensures w.Valid() ==> w.Plain() == old(w.Plain())[b := PlainStateOf(old(w.Plain()), b)]
  {
    if own.Some? {
      var response := w.agent.HandleRequest(UnwrapDekFor(b, own.value), 0);
      assert response == Done;
    }
    w.known := w.known[b := newKey];
    w.branches := w.branches[b := StateOf(w.branches, b).(tip := Some(newTip), dekVersion := version)];
    AfterTheSwitch(w.store.files, old(w.known), old(w.agent.deks), old(w.branches), w.known, w.agent.deks, w.branches,
                   b, newKey, newTip, version, own.Some?, w.user);
  }

  lemma GrantsNameMembers(grants: seq<Grant>, members: seq<PersonId>, version: nat, key: KeyId, users: set<PersonId>)
    requires SealedForAll(grants, members, version, key)
    ensures (forall g | g in grants :: g.userId in users) <==> (forall m | m in members :: m in users)
  {}

  /** What the server's tables hold once the batch is applied. */
  lemma AcceptedMeans(
    objects: Files, wrapped: map<Wrapped, SealedDek>, b: string, batch: seq<Upload>, grants: seq<Grant>,
    members: seq<PersonId>, version: nat, key: KeyId, newTip: Hash, oldTip: Option<Hash>)
    requires Intact(objects) && SealedForAll(grants, members, version, key)
    requires forall u | u in batch :: Acceptable(u)
    requires forall h | h in Reach(newTip) :: h in Beyond(oldTip) || exists u | u in batch :: u.hash == h
    ensures var objects', wrapped' := InsertAll(objects, batch), GrantAll(wrapped, b, grants);
            && Extends(objects, objects') && Intact(objects')
            && ((oldTip.Some? ==> Complete(objects, oldTip.value)) ==> Complete(objects', newTip))
            && forall m | m in members ::
                 Wrapped(b, m, version) in wrapped' && UnwrapDek(wrapped'[Wrapped(b, m, version)], m) == Some(key)
  {
    InsertAllGrows(objects, batch);
    if oldTip.Some? ==> Complete(objects, oldTip.value) {
      BatchCompletesTip(objects, batch, newTip, oldTip);
    }
    forall m | m in members
      ensures var wrapped' := GrantAll(wrapped, b, grants);
              Wrapped(b, m, version) in wrapped' && UnwrapDek(wrapped'[Wrapped(b, m, version)], m) == Some(key)
    {
      GrantedToAll(wrapped, b, grants, members, version, key, m);
    }
  }

  // ---- After the switch -------------------------------------------------------------------------

  /** The committed map is what it was, now under the new key, and the retired key opens none of it. */
  lemma CommittedMapSurvives(
    files: Files, oldKey: KeyId, newKey: KeyId, oldTip: Option<Hash>, newTip: Hash, person: PersonId)
    requires Rotated(files, oldKey, newKey, oldTip, newTip, person)
    ensures PlainTip(newKey, Some(newTip)) == PlainTip(oldKey, oldTip)
    ensures PlainTip(oldKey, Some(newTip)) == map[]
  {}

  /** Staged values are not re-encrypted: after the switch the branch can be read exactly when
      nothing but deletions was staged. */
  lemma ReadableAfterRotationIff(
    files: Files, oldKey: KeyId, newKey: KeyId, oldTip: Option<Hash>, newTip: Hash, person: PersonId,
    staged: map<string, StagedEntry>)
    requires Rotated(files, oldKey, newKey, oldTip, newTip, person)
    requires forall k | k in staged && staged[k].Set? :: Opens(oldKey, staged[k].hash).Some?
    ensures Effective(files, newKey, Some(newTip), staged) <==> forall k | k in staged :: staged[k].Unset?
  {
    forall k | k in staged && staged[k].Set? ensures Opens(newKey, staged[k].hash).None? {}
  }

  /** Fork roots are not re-encrypted either: a merge that needs one can still read it exactly when
      it is empty. */
  lemma ForkRootAfterRotationIff(files: Files, oldKey: KeyId, newKey: KeyId, root: Hash)
    requires Readable(files, oldKey, root) && newKey != oldKey
    ensures Readable(files, newKey, root) <==> EntriesOf(root) == map[]
  {
    OldKeyIsShutOut(files, oldKey, newKey, root);
  }

  /** Nothing still waits for the old key: of the branch only deletions are staged, its fork record is
      empty, and a paused merge of it has nothing of ours and only deletions for answers; a paused merge
      of it into another branch has nothing of theirs. */
  ghost predicate Quiet(branches: Branches, b: string) {
    var bs := StateOf(branches, b);
    && (forall k | k in bs.staged :: bs.staged[k].Unset?)
    && (bs.forkedFrom.Some? ==> EntriesOf(bs.forkedFrom.value.root) == map[])
    && (bs.merge.Some? ==> EntriesOf(bs.merge.value.oursTip) == map[] && OnlyDeletions(bs.merge.value.resolved))
    && forall c | c in branches && branches[c].merge.Some? && branches[c].merge.value.branch == b ::
         EntriesOf(branches[c].merge.value.theirsTip) == map[]
  }

  ghost predicate OnlyDeletions(resolved: map<string, ResolvedEntry>) {
    forall k | k in resolved :: resolved[k].Delete?
  }

  /** The store, keys and saved records around a rotation of branch `b`. */
  ghost predicate Rekeyed(
    files: Files, deks: Deks, branches: Branches, files': Files, deks': Deks, branches': Branches,
    b: string, newTip: Hash, version: nat, person: PersonId)
  {
    && StateOk(files, deks, branches) && Intact(files') && Extends(files, files')
    && b in deks && b in deks' && Rotated(files', deks[b], deks'[b], StateOf(branches, b).tip, newTip, person)
    && branches' == branches[b := StateOf(branches, b).(tip := Some(newTip), dekVersion := version)]
    && forall x | x in branches && x != b :: (x in deks <==> x in deks') && (x in deks ==> deks'[x] == deks[x])
  }

  /** A tip of the rotated branch other than the new one is readable under the new key iff it is empty. */
  lemma OldTipOkIff(files: Files, deks: Deks, files': Files, deks': Deks, b: string, tip: Hash)
    requires TipOk(files, deks, b, tip) && Extends(files, files') && b in deks' && deks'[b] != deks[b]
    ensures TipOk(files', deks', b, tip) <==> EntriesOf(tip) == map[]
    ensures EntriesOf(tip) == map[] ==> PlainTip(deks'[b], Some(tip)) == PlainTip(deks[b], Some(tip))
  {
    TipOkMonotone(files, deks, files', deks, b, tip);
    OldKeyIsShutOut(files', deks[b], deks'[b], tip);
  }

  /** The fork record of the rotated branch is empty, if it has one. */
  ghost predicate EmptyFork(branches: Branches, b: string) {
    StateOf(branches, b).forkedFrom.Some? ==> EntriesOf(StateOf(branches, b).forkedFrom.value.root) == map[]
  }

  lemma BaseStays(
    files: Files, deks: Deks, branches: Branches, files': Files, deks': Deks, branches': Branches,
    b: string, newTip: Hash, version: nat, person: PersonId, c: string, d: string)
    requires Rekeyed(files, deks, branches, files', deks', branches', b, newTip, version, person)
    requires EmptyFork(branches, b) && c in branches && d in branches
    ensures MergeBaseAndCipher(branches', c, d) == MergeBaseAndCipher(branches, c, d)
    ensures PlainBase(deks', branches', c, d) == PlainBase(deks, branches, c, d)
  {
    var (base, cipher) := MergeBaseAndCipher(branches, c, d);
    if base.Some? {
      assert cipher == b ==> EntriesOf(base.value) == map[];
    }
  }

  lemma AnswersOkIff(files: Files, deks: Deks, files': Files, deks': Deks, b: string, ms: MergeState)
    requires MergeEntriesOk(files, deks, b, ms) && b in deks && b in deks' && deks'[b] != deks[b]
    ensures MergeEntriesOk(files', deks', b, ms) <==> OnlyDeletions(ms.resolved)
    ensures OnlyDeletions(ms.resolved) ==> PlainResolved(deks'[b], ms.resolved) == PlainResolved(deks[b], ms.resolved)
  {}

  lemma AnswersElsewhere(files: Files, deks: Deks, files': Files, deks': Deks, c: string, ms: MergeState)
    requires MergeEntriesOk(files, deks, c, ms) && Extends(files, files')
    requires c in deks && c in deks' && deks'[c] == deks[c]
    ensures MergeEntriesOk(files', deks', c, ms)
  {}

  /** Exactly when a paused merge survives, and then it means what it meant. */
  lemma MergeRekeyedIff(
    files: Files, deks: Deks, branches: Branches, files': Files, deks': Deks, branches': Branches,
    b: string, newTip: Hash, version: nat, person: PersonId, c: string, ms: MergeState)
    requires Rekeyed(files, deks, branches, files', deks', branches', b, newTip, version, person)
    requires EmptyFork(branches, b) && c in branches && branches[c].merge == Some(ms)
    ensures MergeOk(files', deks', branches', c, ms) <==>
              && (c == b ==> EntriesOf(ms.oursTip) == map[] && OnlyDeletions(ms.resolved))
              && (ms.branch == b ==> EntriesOf(ms.theirsTip) == map[])
    ensures MergeOk(files', deks', branches', c, ms) ==>
              PlainMergeOf(deks', branches', c, ms) == PlainMergeOf(deks, branches, c, ms)
  {
    assert BranchOk(files, deks, branches, c) && MergeOk(files, deks, branches, c, ms);
    BaseStays(files, deks, branches, files', deks', branches', b, newTip, version, person, c, ms.branch);
    if c == b {
      OldTipOkIff(files, deks, files', deks', b, ms.oursTip);
      AnswersOkIff(files, deks, files', deks', b, ms);
    } else {
      TipOkMonotone(files, deks, files', deks', c, ms.oursTip);
      AnswersElsewhere(files, deks, files', deks', c, ms);
    }
    if ms.branch == b {
      OldTipOkIff(files, deks, files', deks', b, ms.theirsTip);
    } else {
      TipOkMonotone(files, deks, files', deks', ms.branch, ms.theirsTip);
    }
  }

  /** Exactly when the rotated branch itself survives. */
  lemma RotatedBranchOkIff(
    files: Files, deks: Deks, branches: Branches, files': Files, deks': Deks, branches': Branches,
    b: string, newTip: Hash, version: nat, person: PersonId)
    requires Rekeyed(files, deks, branches, files', deks', branches', b, newTip, version, person)
    ensures var bs := StateOf(branches, b);
            BranchOk(files', deks', branches', b) <==>
              && (forall k | k in bs.staged :: bs.staged[k].Unset?) && EmptyFork(branches, b)
              && (bs.merge.Some? ==> MergeOk(files', deks', branches', b, bs.merge.value))
  {
    var bs := StateOf(branches, b);
    assert b in branches ==> BranchOk(files, deks, branches, b);
    if bs.forkedFrom.Some? {
      OldTipOkIff(files, deks, files', deks', b, bs.forkedFrom.value.root);
    }
  }

  /** Exactly when another branch survives. */
  lemma OtherBranchOkIff(
    files: Files, deks: Deks, branches: Branches, files': Files, deks': Deks, branches': Branches,
    b: string, newTip: Hash, version: nat, person: PersonId, c: string)
    requires Rekeyed(files, deks, branches, files', deks', branches', b, newTip, version, person)
    requires EmptyFork(branches, b) && c in branches && c != b
    ensures BranchOk(files', deks', branches', c) <==>
              (branches[c].merge.Some? ==> MergeOk(files', deks', branches', c, branches[c].merge.value))
    ensures BranchOk(files', deks', branches', c) ==>
              PlainBranchOf(deks', branches', c) == PlainBranchOf(deks, branches, c)
  {
    var bs := branches[c];
    assert BranchOk(files, deks, branches, c);
    if bs.tip.Some? { TipOkMonotone(files, deks, files', deks', c, bs.tip.value); }
    if bs.forkedFrom.Some? { TipOkMonotone(files, deks, files', deks', c, bs.forkedFrom.value.root); }
    if bs.merge.Some? {
      MergeRekeyedIff(files, deks, branches, files', deks', branches', b, newTip, version, person, c, bs.merge.value);
    }
  }

  /** A branch in order after the rotation means what it meant before. */
  lemma RotatedBranchMeans(
    files: Files, deks: Deks, branches: Branches, files': Files, deks': Deks, branches': Branches,
    b: string, newTip: Hash, version: nat, person: PersonId)
    requires Rekeyed(files, deks, branches, files', deks', branches', b, newTip, version, person)
    requires BranchOk(files', deks', branches', b)
    ensures PlainBranchOf(deks', branches', b) == PlainStateOf(Meaning(deks, branches), b)
  {
    var bs := StateOf(branches, b);
    RotatedBranchOkIff(files, deks, branches, files', deks', branches', b, newTip, version, person);
    CommittedMapSurvives(files', deks[b], deks'[b], bs.tip, newTip, person);
    SameDeletions(deks[b], deks'[b], bs.staged);
    if bs.merge.Some? {
      MergeRekeyedIff(files, deks, branches, files', deks', branches', b, newTip, version, person, b, bs.merge.value);
    }
  }

  lemma QuietSurvives(
    files: Files, deks: Deks, branches: Branches, files': Files, deks': Deks, branches': Branches,
    b: string, newTip: Hash, version: nat, person: PersonId)
    requires Rekeyed(files, deks, branches, files', deks', branches', b, newTip, version, person)
    requires Quiet(branches, b)
    ensures StateOk(files', deks', branches')
  {
    var bs := StateOf(branches, b);
    if bs.merge.Some? {
      MergeRekeyedIff(files, deks, branches, files', deks', branches', b, newTip, version, person, b, bs.merge.value);
    }
    RotatedBranchOkIff(files, deks, branches, files', deks', branches', b, newTip, version, person);
    forall c | c in branches && c != b ensures BranchOk(files', deks', branches', c) {
      OtherBranchOkIff(files, deks, branches, files', deks', branches', b, newTip, version, person, c);
      if branches[c].merge.Some? {
        MergeRekeyedIff(files, deks, branches, files', deks', branches', b, newTip, version, person, c,
          branches[c].merge.value);
      }
    }
  }

  lemma SurvivorIsQuiet(
    files: Files, deks: Deks, branches: Branches, files': Files, deks': Deks, branches': Branches,
    b: string, newTip: Hash, version: nat, person: PersonId)
    requires Rekeyed(files, deks, branches, files', deks', branches', b, newTip, version, person)
    requires StateOk(files', deks', branches')
    ensures Quiet(branches, b)
  {
    var bs := StateOf(branches, b);
    assert BranchOk(files', deks', branches', b);
    RotatedBranchOkIff(files, deks, branches, files', deks', branches', b, newTip, version, person);
    if bs.merge.Some? {
      MergeRekeyedIff(files, deks, branches, files', deks', branches', b, newTip, version, person, b, bs.merge.value);
    }
    forall c | c in branches && branches[c].merge.Some? && branches[c].merge.value.branch == b
      ensures EntriesOf(branches[c].merge.value.theirsTip) == map[]
    {
      assert BranchOk(files', deks', branches', c);
      if c != b {
        OtherBranchOkIff(files, deks, branches, files', deks', branches', b, newTip, version, person, c);
      }
      MergeRekeyedIff(files, deks, branches, files', deks', branches', b, newTip, version, person, c,
        branches[c].merge.value);
    }
  }

  lemma SurvivorMeans(
    files: Files, deks: Deks, branches: Branches, files': Files, deks': Deks, branches': Branches,
    b: string, newTip: Hash, version: nat, person: PersonId)
    requires Rekeyed(files, deks, branches, files', deks', branches', b, newTip, version, person)
    requires StateOk(files', deks', branches') && Quiet(branches, b)
    ensures Meaning(deks', branches') == Meaning(deks, branches)[b := PlainStateOf(Meaning(deks, branches), b)]
  {
    RotatedBranchMeans(files, deks, branches, files', deks', branches', b, newTip, version, person);
    forall c | c in branches && c != b
      ensures PlainBranchOf(deks', branches', c) == PlainBranchOf(deks, branches, c)
    {
      OtherBranchOkIff(files, deks, branches, files', deks', branches', b, newTip, version, person, c);
    }
    SameElsewhere(deks, branches, deks', branches', b);
  }

  /** Main result: after a rotation by somebody who gets the new key, everything on every branch is
      readable and means what it meant before if and only if nothing was pending under the old key. */
  lemma RotationIsInvisible(
    files: Files, deks: Deks, branches: Branches, files': Files, deks': Deks, branches': Branches,
    b: string, newTip: Hash, version: nat, person: PersonId)
    requires Rekeyed(files, deks, branches, files', deks', branches', b, newTip, version, person)
    ensures StateOk(files', deks', branches') <==> Quiet(branches, b)
    ensures StateOk(files', deks', branches') ==>
              Meaning(deks', branches') == Meaning(deks, branches)[b := PlainStateOf(Meaning(deks, branches), b)]
  {
    if Quiet(branches, b) {
      QuietSurvives(files, deks, branches, files', deks', branches', b, newTip, version, person);
    }
    if StateOk(files', deks', branches') {
      SurvivorIsQuiet(files, deks, branches, files', deks', branches', b, newTip, version, person);
      SurvivorMeans(files, deks, branches, files', deks', branches', b, newTip, version, person);
    }
  }

  /** ... and for the workspace: it is in order exactly if moreover the rotator has the new key. */
  lemma AfterTheSwitch(
    files: Files, known: Deks, deks: Deks, branches: Branches, known': Deks, deks': Deks, branches': Branches,
    b: string, newKey: KeyId, newTip: Hash, version: nat, listed: bool, person: PersonId)
    requires StateOk(files, known, branches) && b in deks && forall c | c in deks :: c in known && known[c] == deks[c]
    requires SwitchedOver(known, deks, branches, known', deks', branches', b, newKey, newTip, version, listed)
    requires Rotated(files, known[b], newKey, StateOf(branches, b).tip, newTip, person)
    ensures StateOk(files, known', branches') && (forall c | c in deks' :: c in known' && known'[c] == deks'[c]) <==>
              Quiet(branches, b) && listed
    ensures StateOk(files, known', branches') ==>
              Meaning(known', branches') == Meaning(known, branches)[b := PlainStateOf(Meaning(known, branches), b)]
  {
    RotationIsInvisible(files, known, branches, files, known', branches', b, newTip, version, person);
    assert b in deks';
  }

  lemma SameDeletions(a: KeyId, c: KeyId, staged: map<string, StagedEntry>)
    requires forall k | k in staged :: staged[k].Unset?
    ensures PlainEdits(a, staged) == PlainEdits(c, staged)
  {}
}
