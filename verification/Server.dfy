// The server's tables and the handlers that change them, each one atomic step. Authorisation is
// not modelled: a call stands for one that passed its role check.
module Server {
  import opened Wrappers
  import opened Crypto
  import opened Objects

  datatype ApiError = BadRequest | ForeignKey

  datatype Upload = Upload(hash: Hash, kind: string, body: Bytes)

  /** One user's copy of a branch's data key, sealed for that user. */
  datatype Grant = Grant(userId: PersonId, dekVersion: nat, sealedBox: SealedDek)

  datatype Wrapped = Wrapped(branch: string, userId: PersonId, dekVersion: nat)

  /** One row of the membership table. */
  datatype Membership = Membership(branch: string, user: PersonId)

  datatype MoveReply = Moved | UnknownObject | Conflict(current: Option<Hash>)

  function RefOf(refs: map<string, Hash>, branch: string): Option<Hash> {
    if branch in refs then Some(refs[branch]) else None
  }

  /** Compare-and-swap: `None` creates, `Some(h)` moves only from `h`, and the target must be stored. */
  function MoveReplyTo(
    objects: Files, refs: map<string, Hash>, branch: string, oldHash: Option<Hash>, newHash: Hash): MoveReply
  {
    if newHash !in objects then UnknownObject
    else if RefOf(refs, branch) == oldHash then Moved
    else Conflict(RefOf(refs, branch))
  }

  /** Insert unless the hash is already stored. */
  function Insert(objects: Files, hash: Hash, body: Bytes): Files {
    if hash in objects then objects else objects[hash := body]
  }

  predicate Acceptable(u: Upload) {
    u.kind in {"blob", "tree", "commit"} && Of(u.body) == u.hash
  }

  function InsertAll(objects: Files, batch: seq<Upload>): Files
    decreases |batch|
  {
    if batch == [] then objects else InsertAll(Insert(objects, batch[0].hash, batch[0].body), batch[1..])
  }

  function GrantAll(wrapped: map<Wrapped, SealedDek>, branch: string, grants: seq<Grant>): map<Wrapped, SealedDek>
    decreases |grants|
  {
    if grants == [] then wrapped
    else GrantAll(wrapped[Wrapped(branch, grants[0].userId, grants[0].dekVersion) := grants[0].sealedBox], branch,
      grants[1..])
  }

  lemma {:induction false} InsertAllSnoc(objects: Files, batch: seq<Upload>, u: Upload)
    ensures InsertAll(objects, batch + [u]) == Insert(InsertAll(objects, batch), u.hash, u.body)
    decreases |batch|
  {
    if batch == [] {
      assert InsertAll(objects, [u]) == InsertAll(Insert(objects, u.hash, u.body), []);
    } else {
      assert (batch + [u])[1..] == batch[1..] + [u];
      InsertAllSnoc(Insert(objects, batch[0].hash, batch[0].body), batch[1..], u);
    }
  }

  lemma {:induction false} GrantAllSnoc(wrapped: map<Wrapped, SealedDek>, branch: string, grants: seq<Grant>, g: Grant)
    ensures GrantAll(wrapped, branch, grants + [g]) ==
            GrantAll(wrapped, branch, grants)[Wrapped(branch, g.userId, g.dekVersion) := g.sealedBox]
    decreases |grants|
  {
    if grants == [] {
      assert GrantAll(wrapped, branch, [g]) ==
             GrantAll(wrapped[Wrapped(branch, g.userId, g.dekVersion) := g.sealedBox], branch, []);
    } else {
      assert (grants + [g])[1..] == grants[1..] + [g];
      GrantAllSnoc(wrapped[Wrapped(branch, grants[0].userId, grants[0].dekVersion) := grants[0].sealedBox], branch,
        grants[1..], g);
    }
  }

  /** Granting changes the named entries only. */
  lemma {:induction false} OthersKeepTheirs(
    wrapped: map<Wrapped, SealedDek>, branch: string, grants: seq<Grant>, x: Wrapped)
    requires forall g | g in grants :: x != Wrapped(branch, g.userId, g.dekVersion)
    ensures var after := GrantAll(wrapped, branch, grants);
            (x in after <==> x in wrapped) && (x in after ==> after[x] == wrapped[x])
    decreases |grants|
  {
    if grants != [] {
      assert grants[0] in grants && forall g | g in grants[1..] :: g in grants;
      var next := wrapped[Wrapped(branch, grants[0].userId, grants[0].dekVersion) := grants[0].sealedBox];
      OthersKeepTheirs(next, branch, grants[1..], x);
    }
  }

  /** A batch of verified uploads only ever adds what it names. */
  lemma {:induction false} InsertAllGrows(objects: Files, batch: seq<Upload>)
    requires Intact(objects) && forall u | u in batch :: Acceptable(u)
    ensures Intact(InsertAll(objects, batch)) && Extends(objects, InsertAll(objects, batch))
    ensures InsertAll(objects, batch).Keys == objects.Keys + set u | u in batch :: u.hash
    decreases |batch|
  {
    if batch != [] {
      assert batch[0] in batch && forall u | u in batch[1..] :: u in batch;
      InsertAllGrows(Insert(objects, batch[0].hash, batch[0].body), batch[1..]);
      NamedHashes(batch);
    }
  }

  lemma NamedHashes(batch: seq<Upload>)
    requires batch != []
    ensures (set u | u in batch :: u.hash) == {batch[0].hash} + set u | u in batch[1..] :: u.hash
  {}

  predicate IsLeast(u: PersonId, users: set<PersonId>) {
    u in users && forall v | v in users :: u <= v
  }

  lemma {:induction false} LeastExists(users: set<PersonId>)
    requires users != {}
    ensures exists u :: IsLeast(u, users)
    decreases |users|
  {
    var x :| x in users;
    var rest := users - {x};
    assert users == rest + {x};
    if rest == {} {
      assert IsLeast(x, users);
    } else {
      LeastExists(rest);
      var m :| IsLeast(m, rest);
      assert IsLeast(if x < m then x else m, users);
    }
  }

  function Least(users: set<PersonId>): (u: PersonId)
    requires users != {}
    ensures IsLeast(u, users)
  {
    LeastExists(users);
    var u :| IsLeast(u, users);
    u
  }

  lemma AscendingCons(u: PersonId, rest: seq<PersonId>)
    requires forall i, j | 0 <= i < j < |rest| :: rest[i] < rest[j]
    requires forall v | v in rest :: u < v
    ensures var s := [u] + rest; forall i, j | 0 <= i < j < |s| :: s[i] < s[j]
  {
    var s := [u] + rest;
    forall i, j | 0 <= i < j < |s| ensures s[i] < s[j] {
      assert s[j] == rest[j - 1] && rest[j - 1] in rest;
    }
  }

  /** The users in increasing order, each once. */
  function Ascending(users: set<PersonId>): (s: seq<PersonId>)
    ensures forall u :: u in s <==> u in users
    ensures forall i, j | 0 <= i < j < |s| :: s[i] < s[j]
    decreases |users|
  {
    if users == {} then []
    else
      var u := Least(users);
      var rest := Ascending(users - {u});
      AscendingCons(u, rest);
      [u] + rest
  }

  class Server {
    var objects: Files
    var refs: map<string, Hash>
    var wrapped: map<Wrapped, SealedDek>
    var versions: map<string, nat>
    var members: set<Membership>
    var users: set<PersonId>

    constructor ()
      ensures objects == map[] && refs == map[] && wrapped == map[] && versions == map[] && members == {}
                && users == {}
    {
      objects, refs, wrapped, versions, members, users := map[], map[], map[], map[], {}, {};
    }

    method UploadObject(u: Upload) returns (r: Result<(), ApiError>)
      modifies this`objects
      ensures r.Ok? <==> Acceptable(u)
      ensures objects == if r.Ok? then Insert(old(objects), u.hash, u.body) else old(objects)
    {
      if u.kind !in {"blob", "tree", "commit"} {
        return Err(BadRequest);
      }
      var actual := Of(u.body);
      if actual != u.hash {
        return Err(BadRequest);
      }
      objects := Insert(objects, u.hash, u.body);
      return Ok(());
    }

    function GetRef(branch: string): Option<Hash>
      reads this`refs
    {
      RefOf(refs, branch)
    }

    method MoveRef(branch: string, oldHash: Option<Hash>, newHash: Hash) returns (r: MoveReply)
      modifies this`refs
      ensures r == MoveReplyTo(objects, old(refs), branch, oldHash, newHash)
      ensures refs == if r == Moved then old(refs)[branch := newHash] else old(refs)
    {
      if newHash !in objects {
        return UnknownObject;
      }
      match oldHash {
        case None =>
          if branch !in refs {
            refs := refs[branch := newHash];
            return Moved;
          }
        case Some(h) =>
          if branch in refs && refs[branch] == h {
            refs := refs[branch := newHash];
            return Moved;
          }
      }
      return Conflict(GetRef(branch));
    }

    /** The branch's members that are users, in user-id order; a sealed box for one is addressed to the key
        with that id. */
    function ListMembers(branch: string): (listed: seq<PersonId>)
      reads this`members, this`users
      ensures forall u :: u in listed <==> Membership(branch, u) in members && u in users
      ensures forall i, j | 0 <= i < j < |listed| :: listed[i] < listed[j]
    {
      Ascending(set u | u in users && Membership(branch, u) in members)
    }

    method AddMember(branch: string, user: PersonId) returns (r: Result<(), ApiError>)
      modifies this`members
      ensures r.Ok? <==> user in users
      ensures members == if r.Ok? then old(members) + {Membership(branch, user)} else old(members)
    {
      if user !in users {
        return Err(ForeignKey);
      }
      members := members + {Membership(branch, user)};
      return Ok(());
    }

    method RemoveMember(branch: string, user: PersonId)
      modifies this`members
      ensures members == old(members) - {Membership(branch, user)}
    {
      members := members - {Membership(branch, user)};
    }

    method GrantKey(branch: string, g: Grant) returns (r: Result<(), ApiError>)
      modifies this`wrapped
      ensures r.Ok? <==> g.userId in users
      ensures wrapped == if r.Ok? then old(wrapped)[Wrapped(branch, g.userId, g.dekVersion) := g.sealedBox]
                else old(wrapped)
    {
      if g.userId !in users {
        return Err(ForeignKey);
      }
      wrapped := wrapped[Wrapped(branch, g.userId, g.dekVersion) := g.sealedBox];
      return Ok(());
    }

    /** One transaction: the new objects, the new sealed keys and the version bump, or nothing. */
    method Rotate(branch: string, newVersion: nat, batch: seq<Upload>, grants: seq<Grant>)
      returns (r: Result<(), ApiError>)
      modifies this`objects, this`wrapped, this`versions
      ensures r.Ok? <==> (forall u | u in batch :: Acceptable(u)) && (forall g | g in grants :: g.userId in users)
      ensures r.Err? ==> objects == old(objects) && wrapped == old(wrapped) && versions == old(versions)
      ensures r.Ok? ==>
                && objects == InsertAll(old(objects), batch)
                && wrapped == GrantAll(old(wrapped), branch, grants)
                && versions == old(versions)[branch := newVersion]
    {
      for i := 0 to |batch|
        invariant objects == old(objects) && wrapped == old(wrapped) && versions == old(versions)
        invariant forall j | 0 <= j < i :: Acceptable(batch[j])
      {
        if !Acceptable(batch[i]) {
          return Err(BadRequest);
        }
      }
      var txObjects, txWrapped := objects, wrapped;
      for i := 0 to |batch|
        invariant objects == old(objects) && wrapped == old(wrapped) && versions == old(versions)
        invariant txObjects == InsertAll(old(objects), batch[..i])
      {
        InsertAllSnoc(old(objects), batch[..i], batch[i]);
        assert batch[..i + 1] == batch[..i] + [batch[i]];
        txObjects := Insert(txObjects, batch[i].hash, batch[i].body);
      }
      for i := 0 to |grants|
        invariant objects == old(objects) && wrapped == old(wrapped) && versions == old(versions)
        invariant txWrapped == GrantAll(old(wrapped), branch, grants[..i])
        invariant forall j | 0 <= j < i :: grants[j].userId in users
      {
        if grants[i].userId !in users {
          return Err(ForeignKey);
        }
        GrantAllSnoc(old(wrapped), branch, grants[..i], grants[i]);
        assert grants[..i + 1] == grants[..i] + [grants[i]];
        txWrapped := txWrapped[Wrapped(branch, grants[i].userId, grants[i].dekVersion) := grants[i].sealedBox];
      }
      assert batch[..|batch|] == batch && grants[..|grants|] == grants;
      objects, wrapped, versions := txObjects, txWrapped, versions[branch := newVersion];
      return Ok(());
    }
  }
}
