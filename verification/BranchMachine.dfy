// Runs of branch commands. Whatever commands are issued in whatever order, the hash-only staging,
// encrypted blobs and shared store behave as one plain map per branch.
module BranchMachine {
  import opened Wrappers
  import opened Crypto
  import opened KeyOrder
  import opened Objects
  import opened ThreeWay
  import opened Agent
  import opened LocalState
  import opened MergeSession
  import opened Workspace
  import opened Merging

  datatype Command =
    | DoSet(branch: string, pairs: seq<(string, string)>)
    | DoUnset(branch: string, keys: seq<string>)
    | DoCommit(branch: string, message: string, timestamp: int)
    | DoCreate(branch: string, from: Option<string>, timestamp: int)
    | DoMerge(branch: string, theirs: string, answers: seq<Answer>, timestamp: int)
    | DoContinue(branch: string, answers: seq<Answer>, timestamp: int)
    | DoAbort(branch: string)
    | DoReady(branch: string)

  /** What happens on a machine: branch commands, and the agent being locked or logged in to by anybody. */
  datatype Event = Run(command: Command) | LockedAgent | LoggedIn(wrapped: WrappedPrivateKey, passphrase: string)

  /** What a command that succeeded does to the plain maps. */
  ghost function Effect(s: PlainState, c: Command): PlainState {
    var b := c.branch;
    var p := PlainStateOf(s, b);
    match c
    case DoSet(_, pairs) => s[b := p.(edits := EditAll(p.edits, pairs))]
    case DoUnset(_, keys) => s[b := p.(edits := DropAll(p.edits, keys))]
    case DoCommit(_, _, _) => s[b := p.(committed := View(p), edits := map[])]
    case DoCreate(_, from, _) => s[b := Forked(s, from)]
    case DoMerge(_, theirs, answers, _) => s[b := AfterSession(p, Session(MergeStart(s, b, theirs), answers))]
    case DoContinue(_, answers, _) =>
      if p.merge.None? then s else s[b := AfterSession(p, Session(p.merge.value, answers))]
    case DoAbort(_) => s[b := p.(merge := None)]
    case DoReady(_) => s[b := p]
  }

  ghost function Replay(s: PlainState, done: seq<Command>): PlainState
    decreases |done|
  {
    if done == [] then s else Effect(Replay(s, done[..|done| - 1]), done[|done| - 1])
  }

  /** What decides whether a command goes through: whose workspace it is, who is logged in, which keys
      are cached, the saved branch records, and the sealed keys the server hands out. */
  datatype Snapshot =
    Snapshot(user: PersonId, identity: Option<PersonId>, deks: Deks, branches: Branches, keys: KeyMap)

  ghost function Now(w: Workspace, keys: KeyMap): Snapshot
    reads w, w.agent
  {
    Snapshot(w.user, w.agent.identity, w.agent.deks, w.branches, keys)
  }

  ghost predicate ReadyIn(s: Snapshot, b: string) {
    s.identity == Some(s.user) && b in s.deks
  }

  /** Exactly when a command changes something; otherwise it is refused, or there is nothing to do. */
  ghost predicate Accepts(s: Snapshot, c: Command) {
    var b, bs := c.branch, StateOf(s.branches, c.branch);
    match c
    case DoSet(_, _) => ReadyIn(s, b)
    case DoUnset(_, _) => true
    case DoCommit(_, _, _) => ReadyIn(s, b) && bs.staged != map[]
    case DoCreate(_, from, _) =>
      && b !in s.branches && s.identity.Some?
      && (from.None? || (s.identity == Some(s.user) && (from.value == b || from.value in s.deks)))
    case DoMerge(_, theirs, _, _) =>
      var other := StateOf(s.branches, theirs);
      && ReadyIn(s, b) && ReadyIn(s, theirs) && bs.merge.None?
      && bs.tip.Some? && other.tip.Some? && bs.tip != other.tip
    case DoContinue(_, _, _) => ReadyIn(s, b) && bs.merge.Some? && ReadyIn(s, bs.merge.value.branch)
    case DoAbort(_) => bs.merge.Some?
    case DoReady(_) => s.identity == Some(s.user) && b !in s.deks && Held(b, s.user) in s.keys
  }

  ghost predicate Happens(s: Snapshot, e: Event) {
    match e
    case Run(c) => Accepts(s, c)
    case LockedAgent => true
    case LoggedIn(wrapped, passphrase) => wrapped.WrappedPrivateKey? && wrapped.passphrase == passphrase
  }

  /** What an event may change of who is logged in, what is cached and what is saved. Only readying and
      creating a branch touch the cache, and only at that branch; a command saves only its branch. */
  ghost predicate Follows(s: Snapshot, e: Event, ok: bool, t: Snapshot) {
    match e
    case LockedAgent => t == s.(identity := None, deks := map[])
    case LoggedIn(wrapped, _) =>
      t == if ok && wrapped.WrappedPrivateKey? then s.(identity := Some(wrapped.person)) else s
    case Run(c) =>
      && t == s.(deks := t.deks, branches := t.branches)
      && (t.branches == s.branches || (ok && t.branches == s.branches[c.branch := StateOf(t.branches, c.branch)]))
      && (t.deks == s.deks ||
          (((c.DoReady? && ok) || (c.DoCreate? && c.branch !in s.branches)) &&
           t.deks == s.deks[c.branch := KeyOf(t.deks, c.branch)]))
      && (ok && (c.DoReady? || c.DoCreate?) ==> c.branch in t.deks)
  }

  /** Creating a branch draws a fresh key: what the server keeps for this person stays a copy of the
      branch's key exactly if it keeps nothing under the new name. */
  lemma FreshKeyIsHonestIff(keys: KeyMap, known: Deks, person: PersonId, b: string, drawn: KeyId)
    requires Honest(keys, known, person) && forall c | c in known :: known[c] < drawn
    ensures Honest(keys, known[b := drawn], person) <==> Held(b, person) !in keys
  {
    if Held(b, person) in keys {
      assert Newest(keys[Held(b, person)]).sealedBox == WrapDek(known[b], person);
    }
  }

  /** Issue one command. */
  method Issue(w: Workspace, keys: KeyMap, c: Command) returns (done: bool)
    requires w.Valid() && Honest(keys, w.known, w.user) && (c.DoCreate? ==> Held(c.branch, w.user) !in keys)
    modifies w`branches, w`drawn, w`known, w.store, w.agent
    ensures w.Valid() && Honest(keys, w.known, w.user) && Extends(old(w.store.files), w.store.files)
    ensures done == Accepts(old(Now(w, keys)), c)
    ensures Follows(old(Now(w, keys)), Run(c), done, Now(w, keys))
    ensures w.Plain() == if done then Effect(old(w.Plain()), c) else old(w.Plain())
  {
    match c {
      case DoCreate(b, from, timestamp) =>
        FreshKeyIsHonestIff(keys, w.known, w.user, b, w.drawn);
        var r := w.BranchCreate(b, from, timestamp);
        return r.Ok?;
      case DoReady(b) =>
        var cached := b in w.agent.deks;
        var r := w.ReadyBranch(b, keys);
        return r.Ok? && !cached;
      case DoMerge(b, theirs, answers, timestamp) =>
        done := IssueMerge(w, keys, b, theirs, answers, timestamp);
      case DoContinue(b, answers, timestamp) =>
        done := IssueContinue(w, keys, b, answers, timestamp);
      case _ =>
        done := IssueEdit(w, keys, c);
    }
  }

  method IssueEdit(w: Workspace, keys: KeyMap, c: Command) returns (done: bool)
    requires w.Valid() && (c.DoSet? || c.DoUnset? || c.DoCommit? || c.DoAbort?)
    modifies w`branches, w`drawn, w.store, w.agent
    ensures w.Valid() && Extends(old(w.store.files), w.store.files)
    ensures done == Accepts(old(Now(w, keys)), c)
    ensures Follows(old(Now(w, keys)), Run(c), done, Now(w, keys))
    ensures w.Plain() == if done then Effect(old(w.Plain()), c) else old(w.Plain())
  {
    match c {
      case DoSet(b, pairs) =>
        var r := w.SetValues(b, pairs);
        return r.Ok?;
      case DoUnset(b, names) =>
        w.UnsetKeys(b, names);
        return true;
      case DoCommit(b, message, timestamp) =>
        StagedIsEdits(w.known, w.branches, b);
        var r := w.CommitStaged(b, message, timestamp);
        return r.Ok?;
      case DoAbort(b) =>
        PausedInPlain(w.known, w.branches, b);
        var r := MergeAbort(w, b);
        return r.Ok?;
    }
  }

  lemma OnlyMergedFollows(s: Snapshot, t: Snapshot, c: Command, outcome: MergeOutcome)
    requires (c.DoMerge? || c.DoContinue?) && t == s.(branches := t.branches)
    requires OnlyMerged(s.branches, t.branches, c.branch, outcome)
    ensures Follows(s, Run(c), true, t)
  {}

  method IssueMerge(w: Workspace, keys: KeyMap, b: string, theirs: string, answers: seq<Answer>, timestamp: int)
    returns (done: bool)
    requires w.Valid()
    modifies w`branches, w`drawn, w.store, w.agent
    ensures var c := DoMerge(b, theirs, answers, timestamp);
            && w.Valid() && Extends(old(w.store.files), w.store.files)
            && done == Accepts(old(Now(w, keys)), c) && Follows(old(Now(w, keys)), Run(c), done, Now(w, keys))
            && w.Plain() == if done then Effect(old(w.Plain()), c) else old(w.Plain())
  {
    ghost var before := Now(w, keys);
    ghost var accepted, ours, other :=
      Accepts(before, DoMerge(b, theirs, answers, timestamp)), StateOf(w.branches, b), StateOf(w.branches, theirs);
    assert accepted <==>
           && w.Ready(b) && w.Ready(theirs) && ours.merge.None?
           && ours.tip.Some? && other.tip.Some? && ours.tip != other.tip;
    var r := Merge(w, b, theirs, answers, timestamp);
    done := r.Ok? && !r.value.AlreadyMerged?;
    assert done == accepted;
    assert w.agent.State() == AgentState(before.identity, before.deks);
    if done {
      OnlyMergedFollows(before, Now(w, keys), DoMerge(b, theirs, answers, timestamp), r.value);
    }
  }

  lemma PausedInPlain(deks: Deks, branches: Branches, b: string)
    ensures StateOf(branches, b).merge.Some? <==> PlainStateOf(Meaning(deks, branches), b).merge.Some?
  {}

  lemma ContinueEffect(s: PlainState, t: PlainState, b: string, answers: seq<Answer>, timestamp: int)
    requires PlainStateOf(s, b).merge.Some? && SessionMeans(s, b, Session(PlainStateOf(s, b).merge.value, answers), t)
    ensures t == Effect(s, DoContinue(b, answers, timestamp))
  {}

  method IssueContinue(w: Workspace, keys: KeyMap, b: string, answers: seq<Answer>, timestamp: int) returns (done: bool)
    requires w.Valid()
    modifies w`branches, w`drawn, w.store, w.agent
    ensures var c := DoContinue(b, answers, timestamp);
            && w.Valid() && Extends(old(w.store.files), w.store.files)
            && done == Accepts(old(Now(w, keys)), c) && Follows(old(Now(w, keys)), Run(c), done, Now(w, keys))
            && w.Plain() == if done then Effect(old(w.Plain()), c) else old(w.Plain())
  {
    ghost var before, s := Now(w, keys), w.Plain();
    ghost var accepted := Accepts(before, DoContinue(b, answers, timestamp));
    assert accepted <==>
           w.Ready(b) && StateOf(w.branches, b).merge.Some? && w.Ready(StateOf(w.branches, b).merge.value.branch);
    PausedInPlain(w.known, w.branches, b);
    var r := MergeContinue(w, b, answers, timestamp);
    done := r.Ok?;
    assert done == accepted;
    assert w.agent.State() == AgentState(before.identity, before.deks);
    if done {
      ContinueEffect(s, w.Plain(), b, answers, timestamp);
      OnlyMergedFollows(before, Now(w, keys), DoContinue(b, answers, timestamp), r.value);
    }
  }

  /** Let one event happen. */
  method Happen(w: Workspace, keys: KeyMap, e: Event) returns (ok: bool)
    requires w.Valid() && Honest(keys, w.known, w.user)
    requires e.Run? && e.command.DoCreate? ==> Held(e.command.branch, w.user) !in keys
    modifies w`branches, w`drawn, w`known, w.store, w.agent
    ensures w.Valid() && Honest(keys, w.known, w.user) && Extends(old(w.store.files), w.store.files)
    ensures ok == Happens(old(Now(w, keys)), e)
    ensures Follows(old(Now(w, keys)), e, ok, Now(w, keys))
    ensures w.Plain() == if ok && e.Run? then Effect(old(w.Plain()), e.command) else old(w.Plain())
  {
    match e {
      case Run(c) =>
        ok := Issue(w, keys, c);
      case LockedAgent =>
        w.LockAgent();
        return true;
      case LoggedIn(wrapped, passphrase) =>
        ok := w.LogIn(wrapped, passphrase);
    }
  }

  /** The commands that went through. */
  function Kept(events: seq<Event>, done: seq<bool>): seq<Command>
    requires |events| == |done|
    decreases |events|
  {
    if events == [] then []
    else
      var n := |events| - 1;
      Kept(events[..n], done[..n]) + if done[n] && events[n].Run? then [events[n].command] else []
  }

  /** Each event of a run goes through or not by the state it meets, and leaves a state it may leave. */
  ghost predicate Decided(trace: seq<Snapshot>, events: seq<Event>, done: seq<bool>) {
    && |trace| == |events| + 1 && |done| == |events|
    && forall i | 0 <= i < |events| ::
         done[i] == Happens(trace[i], events[i]) && Follows(trace[i], events[i], done[i], trace[i + 1])
  }

  /** A run over `events` from the state `start`, meaning `s0`, to the state `now`, meaning `s`. */
  ghost predicate Ran(
    s0: PlainState, start: Snapshot, events: seq<Event>, done: seq<bool>, trace: seq<Snapshot>, s: PlainState,
    now: Snapshot)
  {
    && Decided(trace, events, done) && trace[0] == start && trace[|events|] == now
    && s == Replay(s0, Kept(events, done))
  }

  lemma KeptMore(s0: PlainState, events: seq<Event>, done: seq<bool>, e: Event, ok: bool)
    requires |events| == |done|
    ensures var before := Replay(s0, Kept(events, done));
            Replay(s0, Kept(events + [e], done + [ok])) == if ok && e.Run? then Effect(before, e.command) else before
  {
    var kept := Kept(events, done);
    assert (events + [e])[..|events|] == events && (done + [ok])[..|events|] == done;
    if ok && e.Run? {
      assert (kept + [e.command])[..|kept|] == kept;
    } else {
      assert kept + [] == kept;
    }
  }

  lemma DecidedMore(trace: seq<Snapshot>, events: seq<Event>, done: seq<bool>, e: Event, ok: bool, next: Snapshot)
    requires Decided(trace, events, done)
    requires ok == Happens(trace[|events|], e) && Follows(trace[|events|], e, ok, next)
    ensures Decided(trace + [next], events + [e], done + [ok])
  {}

  lemma RanMore(
    s0: PlainState, start: Snapshot, events: seq<Event>, done: seq<bool>, trace: seq<Snapshot>, s: PlainState,
    now: Snapshot,
    e: Event, ok: bool, s': PlainState, next: Snapshot)
    requires Ran(s0, start, events, done, trace, s, now) && ok == Happens(now, e) && Follows(now, e, ok, next)
    requires s' == if ok && e.Run? then Effect(s, e.command) else s
    ensures Ran(s0, start, events + [e], done + [ok], trace + [next], s', next)
  {
    KeptMore(s0, events, done, e, ok);
    DecidedMore(trace, events, done, e, ok, next);
  }

  /** No event creates a branch under a name for which the server keeps a key for this person. */
  ghost predicate NewNames(events: seq<Event>, keys: KeyMap, person: PersonId) {
    forall e | e in events && e.Run? && e.command.DoCreate? :: Held(e.command.branch, person) !in keys
  }

  /** Let any events happen, in any state: locked or not, whichever keys are cached. The invariant holds
      throughout, each event goes through exactly when the state it meets accepts it, and the final state
      means what replaying the commands that went through on plain maps gives. */
  method RunAll(w: Workspace, keys: KeyMap, events: seq<Event>) returns (done: seq<bool>, ghost trace: seq<Snapshot>)
    requires w.Valid() && Honest(keys, w.known, w.user) && NewNames(events, keys, w.user)
    modifies w`branches, w`drawn, w`known, w.store, w.agent
    ensures w.Valid() && Honest(keys, w.known, w.user) && Extends(old(w.store.files), w.store.files)
    ensures Ran(old(w.Plain()), old(Now(w, keys)), events, done, trace, w.Plain(), Now(w, keys))
  {
    done, trace := [], [Now(w, keys)];
    for i := 0 to |events|
      invariant w.Valid() && Honest(keys, w.known, w.user) && Extends(old(w.store.files), w.store.files)
      invariant Ran(old(w.Plain()), old(Now(w, keys)), events[..i], done, trace, w.Plain(), Now(w, keys))
    {
      ghost var s, now := w.Plain(), Now(w, keys);
      assert events[..i + 1] == events[..i] + [events[i]];
      var ok := Happen(w, keys, events[i]);
      RanMore(old(w.Plain()), old(Now(w, keys)), events[..i], done, trace, s, now, events[i], ok, w.Plain(),
        Now(w, keys));
      done, trace := done + [ok], trace + [Now(w, keys)];
    }
    assert events[..|events|] == events;
  }

  /** A branch whose key is not cached, and of whose key the server keeps nothing for this person, is never
      ready again: a branch that was never pushed does not survive a lock. */
  lemma {:induction false} LostKeyStaysLost(
    trace: seq<Snapshot>, events: seq<Event>, done: seq<bool>, b: string, i: nat, j: nat)
    requires Decided(trace, events, done) && i <= j < |trace|
    requires b in trace[i].branches && b !in trace[i].deks && Held(b, trace[i].user) !in trace[i].keys
    ensures b in trace[j].branches && !ReadyIn(trace[j], b) && b !in trace[j].deks
    ensures trace[j].user == trace[i].user && trace[j].keys == trace[i].keys
    decreases j
  {
    if i < j {
      LostKeyStaysLost(trace, events, done, b, i, j - 1);
      assert Follows(trace[j - 1], events[j - 1], done[j - 1], trace[j - 1 + 1]);
    }
  }

  /** Commands on other branches leave a branch exactly as it was, forks and merges of it included. */
  lemma {:induction false} OtherBranchesUntouched(s: PlainState, done: seq<Command>, b: string)
    requires forall c | c in done :: c.branch != b
    ensures PlainStateOf(Replay(s, done), b) == PlainStateOf(s, b)
    decreases |done|
  {
    if done != [] {
      assert done[|done| - 1] in done;
      OtherBranchesUntouched(s, done[..|done| - 1], b);
    }
  }

  /** The value most recently staged for a key among some pairs. */
  function LastPair(pairs: seq<(string, string)>, k: string): Option<string>
    decreases |pairs|
  {
    if pairs == [] then None
    else if pairs[|pairs| - 1].0 == k then Some(pairs[|pairs| - 1].1)
    else LastPair(pairs[..|pairs| - 1], k)
  }

  /** The last thing a run did to a key of a branch, if anything: set it (`Some(Some(v))`) or drop it. */
  function LastWrite(done: seq<Command>, b: string, k: string): Option<Option<string>>
    decreases |done|
  {
    if done == [] then None
    else
      var c, before := done[|done| - 1], done[..|done| - 1];
      if c.DoSet? && c.branch == b && LastPair(c.pairs, k).Some? then Some(LastPair(c.pairs, k))
      else if c.DoUnset? && c.branch == b && k in c.keys then Some(None)
      else LastWrite(before, b, k)
  }

  lemma {:induction false} EditAllGet(edits: map<string, Option<string>>, pairs: seq<(string, string)>, k: string)
    ensures LastPair(pairs, k).Some? ==> k in EditAll(edits, pairs) && EditAll(edits, pairs)[k] == LastPair(pairs, k)
    ensures LastPair(pairs, k).None? ==> (k in EditAll(edits, pairs) <==> k in edits)
                                         && (k in edits ==> EditAll(edits, pairs)[k] == edits[k])
    decreases |pairs|
  {
    if pairs != [] {
      EditAllGet(edits, pairs[..|pairs| - 1], k);
    }
  }

  lemma {:induction false} DropAllGet(edits: map<string, Option<string>>, keys: seq<string>, k: string)
    ensures k in keys ==> k in DropAll(edits, keys) && DropAll(edits, keys)[k] == None
    ensures k !in keys ==>
              && (k in DropAll(edits, keys) <==> k in edits)
              && (k in edits ==> DropAll(edits, keys)[k] == edits[k])
    decreases |keys|
  {
    if keys != [] {
      var init, last := keys[..|keys| - 1], keys[|keys| - 1];
      assert keys == init + [last];
      DropAllGet(edits, init, k);
    }
  }

  /** A command that neither merges into nor creates branch `b`. */
  predicate Plainly(c: Command, b: string) {
    c.branch == b ==> c.DoSet? || c.DoUnset? || c.DoCommit? || c.DoAbort? || c.DoReady?
  }

  lemma EffectOnView(s: PlainState, c: Command, b: string, k: string)
    requires Plainly(c, b)
    ensures Get(View(PlainStateOf(Effect(s, c), b)), k) ==
            if LastWrite([c], b, k).Some? then LastWrite([c], b, k).value else Get(View(PlainStateOf(s, b)), k)
  {
    var p, q := PlainStateOf(s, b), PlainStateOf(Effect(s, c), b);
    assert [c][..0] == [];
    PatchGet(p.edits, p.committed, k);
    PatchGet(q.edits, q.committed, k);
    if c.branch == b {
      match c {
        case DoSet(_, pairs) => EditAllGet(p.edits, pairs, k);
        case DoUnset(_, keys) => DropAllGet(p.edits, keys, k);
        case _ =>
      }
    }
  }

  /** Main result: between merges a branch's view is a last-writer map. A key has the value last set
      on that branch, is absent if last unset, and is as it was if neither happened, however sets and
      unsets are spread over commits and whatever happens on other branches. */
  lemma {:induction false} ViewIsLastWrite(s: PlainState, done: seq<Command>, b: string, k: string)
    requires forall c | c in done :: Plainly(c, b)
    ensures Get(View(PlainStateOf(Replay(s, done), b)), k) ==
            if LastWrite(done, b, k).Some? then LastWrite(done, b, k).value else Get(View(PlainStateOf(s, b)), k)
    decreases |done|
  {
    if done != [] {
      var init, last := done[..|done| - 1], done[|done| - 1];
      assert last in done;
      forall c | c in init ensures Plainly(c, b) { assert c in done; }
      ViewIsLastWrite(s, init, b, k);
      EffectOnView(Replay(s, init), last, b, k);
      assert [last][..0] == [];
    }
  }

  /** Committing shows nothing new: the view is what it was, and it is now the committed map. */
  lemma CommitKeepsView(s: PlainState, c: Command)
    requires c.DoCommit?
    ensures var p, q := PlainStateOf(s, c.branch), PlainStateOf(Effect(s, c), c.branch);
            View(q) == View(p) == q.committed && q.edits == map[]
  {
    var p := PlainStateOf(s, c.branch);
    forall k ensures Get(Patch(map[], View(p)), k) == Get(View(p), k) { PatchGet(map[], View(p), k); }
    SameGets(Patch(map[], View(p)), View(p));
  }

  // ---- Forks and pending edits ------------------------------------------------------------------

  /** A fork starts with exactly the source's committed map: not its pending edits. */
  lemma ForkStartsFromCommitted(s: PlainState, c: Command)
    requires c.DoCreate? && c.from.Some? && c.branch !in s
    ensures View(PlainStateOf(Effect(s, c), c.branch)) == PlainStateOf(s, c.from.value).committed
    ensures forall b | b in s :: Effect(s, c)[b] == s[b]
  {
    var m := PlainStateOf(s, c.from.value).committed;
    forall k ensures Get(Patch(map[], m), k) == Get(m, k) { PatchGet(map[], m, k); }
    SameGets(Patch(map[], m), m);
  }

  /** Pending edits that change nothing. */
  ghost predicate IdleEdits(p: PlainBranch) {
    forall k | k in p.edits :: p.edits[k] == Get(p.committed, k)
  }

  lemma IdleEditsIff(p: PlainBranch)
    ensures View(p) == p.committed <==> IdleEdits(p)
  {
    forall k ensures Get(View(p), k) == if k in p.edits then p.edits[k] else Get(p.committed, k) {
      PatchGet(p.edits, p.committed, k);
    }
    if IdleEdits(p) {
      SameGets(View(p), p.committed);
    }
  }

  /** The documented copy of the source's effective values is made exactly when no pending edit of the
      source changes anything. */
  lemma ForkShowsSourceIff(s: PlainState, c: Command)
    requires c.DoCreate? && c.from.Some? && c.branch !in s
    ensures View(PlainStateOf(Effect(s, c), c.branch)) == View(PlainStateOf(s, c.from.value)) <==>
            IdleEdits(PlainStateOf(s, c.from.value))
  {
    ForkStartsFromCommitted(s, c);
    IdleEditsIff(PlainStateOf(s, c.from.value));
  }

  /** One staged value is enough for the fork to show something else than its source. */
  lemma ForkMissesPendingEdit(k: string, v: string)
    ensures var s := Replay(map[], [DoCreate("main", None, 0), DoSet("main", [(k, v)]),
              DoCreate("fork", Some("main"), 0)]);
            Get(View(PlainStateOf(s, "main")), k) == Some(v) && Get(View(PlainStateOf(s, "fork")), k) == None
  {
    var create, edit, fork := DoCreate("main", None, 0), DoSet("main", [(k, v)]), DoCreate("fork", Some("main"), 0);
    assert [create, edit, fork][..2] == [create, edit] && [create, edit][..1] == [create] && [create][..0] == [];
    var s1 := Effect(map[], create);
    var s2 := Effect(s1, edit);
    assert Replay(map[], [create]) == s1;
    assert Replay(map[], [create, edit]) == s2;
    assert [(k, v)][..0] == [];
    assert "fork" !in s2;
    ForkStartsFromCommitted(s2, fork);
    PatchGet(PlainStateOf(s2, "main").edits, PlainStateOf(s2, "main").committed, k);
  }

  // ---- Merges that pause ------------------------------------------------------------------------

  /** What a merge that finishes commits, key by key: for each conflicting key, in key order, what the
      answer given for it chose; the three-way rule everywhere else. */
  lemma MergeCommitsKeyByKey(s: PlainState, b: string, theirs: string, answers: seq<Answer>, t: int, keys: seq<string>)
    requires var pm := MergeStart(s, b, theirs); Lists(keys, pm.open) && Session(pm, answers).open == {}
    ensures var committed := PlainStateOf(Effect(s, DoMerge(b, theirs, answers, t)), b).committed;
            RulePlusAnswers(MergeStart(s, b, theirs), answers, keys, committed)
  {
    FinalIsRulePlusAnswers(MergeStart(s, b, theirs), answers, keys);
  }

  /** What may happen while a merge into `b` is paused: anything elsewhere; on `b` staging, commits and
      further sessions at the prompt. */
  predicate WhilePaused(c: Command, b: string) {
    c.branch == b ==> c.DoSet? || c.DoUnset? || c.DoCommit? || c.DoContinue? || c.DoReady?
  }

  /** The answers of those sessions. */
  function AnswersOf(done: seq<Command>, b: string): seq<seq<Answer>>
    decreases |done|
  {
    if done == [] then []
    else
      var c := done[|done| - 1];
      AnswersOf(done[..|done| - 1], b) + if c.DoContinue? && c.branch == b then [c.answers] else []
  }

  lemma {:induction false} SessionsSnoc(pm: PlainMerge, sessions: seq<seq<Answer>>, last: seq<Answer>)
    ensures Sessions(pm, sessions + [last]) == Session(Sessions(pm, sessions), last)
    decreases |sessions|
  {
    if sessions == [] {
      assert Sessions(pm, [last]) == Sessions(Session(pm, last), []);
    } else {
      assert (sessions + [last])[1..] == sessions[1..] + [last];
      SessionsSnoc(Session(pm, sessions[0]), sessions[1..], last);
    }
  }

  /** A paused merge waits: through any such run it is where its own sessions have brought it. */
  lemma {:induction false} PausedThrough(s: PlainState, done: seq<Command>, b: string, pm: PlainMerge)
    requires PlainStateOf(s, b).merge == Some(pm)
    requires forall c | c in done :: WhilePaused(c, b)
    requires Sessions(pm, AnswersOf(done, b)).open != {}
    ensures PlainStateOf(Replay(s, done), b).merge == Some(Sessions(pm, AnswersOf(done, b)))
    ensures (forall c | c in done :: !(c.DoCommit? && c.branch == b)) ==>
              PlainStateOf(Replay(s, done), b).committed == PlainStateOf(s, b).committed
    decreases |done|
  {
    if done != [] {
      var init, c := done[..|done| - 1], done[|done| - 1];
      assert c in done && forall d | d in init :: d in done;
      if c.DoContinue? && c.branch == b {
        SessionsSnoc(pm, AnswersOf(init, b), c.answers);
      } else {
        assert AnswersOf(done, b) == AnswersOf(init, b);
      }
      PausedThrough(s, init, b, pm);
    }
  }

  /** Main result: a merge paused, left alone or worked around, and continued any number of times ends,
      at its last session, as one merge with all the answers would have ended. When it finishes it
      commits exactly what that one merge commits; when it does not, and nothing was committed
      meanwhile, the committed map is untouched in both. */
  lemma PausesDoNotMatterInRuns(
    s: PlainState, b: string, theirs: string, first: seq<Answer>, between: seq<Command>, last: seq<Answer>, t: int)
    requires forall c | c in between :: WhilePaused(c, b)
    requires Sessions(MergeStart(s, b, theirs), [first] + AnswersOf(between, b)).open != {}
    ensures var paused := Replay(Effect(s, DoMerge(b, theirs, first, t)), between);
            var after := PlainStateOf(Effect(paused, DoContinue(b, last, t)), b);
            var all := Joined([first] + AnswersOf(between, b) + [last]);
            var once := PlainStateOf(Effect(s, DoMerge(b, theirs, all, t)), b);
            && after.merge == once.merge
            && (once.merge.None? || (forall c | c in between :: !(c.DoCommit? && c.branch == b)) ==>
                  after.committed == once.committed)
  {
    var paused := Replay(Effect(s, DoMerge(b, theirs, first, t)), between);
    StillPaused(s, b, theirs, first, between, t);
    var pm := PlainStateOf(paused, b).merge.value;
    JoinedSessions(MergeStart(s, b, theirs), first, AnswersOf(between, b), last);
    assert PlainStateOf(Effect(paused, DoContinue(b, last, t)), b) ==
      AfterSession(PlainStateOf(paused, b), Session(pm, last));
  }

  lemma StillPaused(s: PlainState, b: string, theirs: string, first: seq<Answer>, between: seq<Command>, t: int)
    requires forall c | c in between :: WhilePaused(c, b)
    requires Sessions(MergeStart(s, b, theirs), [first] + AnswersOf(between, b)).open != {}
    ensures var p := PlainStateOf(Replay(Effect(s, DoMerge(b, theirs, first, t)), between), b);
            && p.merge == Some(Sessions(Session(MergeStart(s, b, theirs), first), AnswersOf(between, b)))
            && ((forall c | c in between :: !(c.DoCommit? && c.branch == b))
                ==> p.committed == PlainStateOf(s, b).committed)
  {
    var pm, given := Session(MergeStart(s, b, theirs), first), AnswersOf(between, b);
    assert ([first] + given)[1..] == given;
    EmptyStaysEmpty(pm, given);
    PausedThrough(Effect(s, DoMerge(b, theirs, first, t)), between, b, pm);
  }

  lemma JoinedSessions(pm: PlainMerge, first: seq<Answer>, given: seq<seq<Answer>>, last: seq<Answer>)
    ensures Sessions(pm, [first] + given) == Sessions(Session(pm, first), given)
    ensures Session(pm, Joined([first] + given + [last])) == Session(Sessions(Session(pm, first), given), last)
  {
    assert ([first] + given)[1..] == given;
    SessionsSnoc(pm, [first] + given, last);
    PausesDoNotMatter(pm, [first] + given + [last]);
  }

  lemma {:induction false} EmptyStaysEmpty(pm: PlainMerge, sessions: seq<seq<Answer>>)
    ensures pm.open == {} ==> Sessions(pm, sessions) == pm
    decreases |sessions|
  {
    if sessions != [] && pm.open == {} {
      EmptyStaysEmpty(pm, sessions[1..]);
    }
  }

  lemma ContinueAt(s: PlainState, b: string, last: seq<Answer>, t: int)
    requires PlainStateOf(s, b).merge.Some?
    ensures var p := PlainStateOf(s, b);
            PlainStateOf(Effect(s, DoContinue(b, last, t)), b) == AfterSession(p, Session(p.merge.value, last))
  {}

  /** What a continued merge commits does not depend on commits made during the pause: it is what
      continuing at once would have committed. */
  lemma ContinueIgnoresCommits(s: PlainState, b: string, done: seq<Command>, last: seq<Answer>, t: int)
    requires PlainStateOf(s, b).merge.Some?
    requires forall c | c in done :: WhilePaused(c, b) && !(c.DoContinue? && c.branch == b)
    requires Session(PlainStateOf(s, b).merge.value, last).open == {} && PlainStateOf(s, b).merge.value.open != {}
    ensures var now, later := Effect(s, DoContinue(b, last, t)), Effect(Replay(s, done), DoContinue(b, last, t));
            PlainStateOf(later, b).committed == PlainStateOf(now, b).committed ==
              Final(Session(PlainStateOf(s, b).merge.value, last))
  {
    NoSessions(done, b);
    PausedThrough(s, done, b, PlainStateOf(s, b).merge.value);
  }

  lemma {:induction false} NoSessions(done: seq<Command>, b: string)
    requires forall c | c in done :: !(c.DoContinue? && c.branch == b)
    ensures AnswersOf(done, b) == []
    decreases |done|
  {
    if done != [] {
      assert done[|done| - 1] in done;
      NoSessions(done[..|done| - 1], b);
    }
  }
}
