// A run in which work committed while a merge is paused is lost when the merge is continued.
module LostWork {
  import opened Wrappers
  import opened Objects
  import opened History
  import opened Vcs
  import opened ThreeWay
  import opened Agent
  import opened CommitBuilder
  import opened LocalState
  import opened MergeSession
  import opened Workspace
  import opened Merging
  import opened BranchMachine

  // ---- On plain maps ----------------------------------------------------------------------------

  /** Whatever key is committed during the pause, if it is in none of the three merged maps it is gone
      once the merge is finished. */
  lemma NewKeyIsDropped(s: PlainState, b: string, k: string, v: string, message: string, last: seq<Answer>, t: int)
    requires var m := PlainStateOf(s, b).merge;
             && m.Some? && Fresh(m.value) && m.value.open != {} && Session(m.value, last).open == {}
             && k !in m.value.base && k !in m.value.ours && k !in m.value.theirs
    ensures var during := Replay(s, [DoSet(b, [(k, v)]), DoCommit(b, message, t)]);
            && Get(PlainStateOf(during, b).committed, k) == Some(v)
            && Get(View(PlainStateOf(Effect(during, DoContinue(b, last, t)), b)), k) == None
  {
    var edit, commit := DoSet(b, [(k, v)]), DoCommit(b, message, t);
    var pm := PlainStateOf(s, b).merge.value;
    TwoCommands(s, edit, commit);
    CommittedMeanwhile(s, b, k, v, message, t);
    ContinueAt(Effect(Effect(s, edit), commit), b, last, t);
    OtherKeyGone(PlainStateOf(Effect(Effect(s, edit), commit), b), pm, last, k);
  }

  lemma OtherKeyGone(p: PlainBranch, pm: PlainMerge, last: seq<Answer>, k: string)
    requires Fresh(pm) && Session(pm, last).open == {} && p.edits == map[]
    requires k !in pm.base && k !in pm.ours && k !in pm.theirs
    ensures Get(View(AfterSession(p, Session(pm, last))), k) == None
  {
    FinalElsewhere(pm, last, k);
    PatchGet(map[], Final(Session(pm, last)), k);
  }

  lemma TwoCommands(s: PlainState, c: Command, d: Command)
    ensures Replay(s, [c, d]) == Effect(Effect(s, c), d)
  {
    assert [c, d][..1] == [c] && [c][..0] == [];
    assert Replay(s, [c]) == Effect(s, c);
  }

  lemma CommittedMeanwhile(s: PlainState, b: string, k: string, v: string, message: string, t: int)
    ensures var p := PlainStateOf(Effect(Effect(s, DoSet(b, [(k, v)])), DoCommit(b, message, t)), b);
            Get(p.committed, k) == Some(v) && p.edits == map[] && p.merge == PlainStateOf(s, b).merge
  {
    var p := PlainStateOf(s, b);
    OneEdit(p.edits, k, v);
    PatchGet(p.edits[k := Some(v)], p.committed, k);
  }

  // ---- On the machine ---------------------------------------------------------------------------

  lemma OneEdit(edits: map<string, Option<string>>, k: string, v: string)
    ensures EditAll(edits, [(k, v)]) == edits[k := Some(v)]
  {
    assert [(k, v)][..0] == [];
  }

  /** Stage one value and commit it. */
  method CommitValue(w: Workspace, b: string, k: string, v: string) returns (h: Hash)
    requires w.Valid() && w.Ready(b) && b in w.branches
    modifies w`branches, w`drawn, w`known, w.store, w.agent
    ensures w.Valid() && w.agent.State() == old(w.agent.State())
    ensures w.branches == old(w.branches)[b := old(w.branches)[b].(staged := map[], tip := Some(h))]
    ensures Parents(h) == if old(w.branches)[b].tip.Some? then [old(w.branches)[b].tip.value] else []
    ensures var p := old(w.Plain())[b];
            var now := Patch(p.edits[k := Some(v)], p.committed);
            && w.Plain() == old(w.Plain())[b := p.(committed := now, edits := map[])]
            && PlainOf(w.known[b], EntriesOf(h)) == now
  {
    ghost var p := w.Plain()[b];
    OneEdit(p.edits, k, v);
    var staged := w.SetValues(b, [(k, v)]);
    assert k in w.Plain()[b].edits;
    ghost var s1, r1 := w.Plain(), w.branches;
    var committed := w.CommitStaged(b, "", 0);
    assert committed.Ok?;
    StagedThenCommitted(old(w.Plain()), s1, w.Plain(), b, p.edits[k := Some(v)]);
    SavedTwiceAt(old(w.branches), r1, w.branches, b, committed.value);
    return committed.value;
  }

  lemma StagedThenCommitted(
    s0: PlainState, s1: PlainState, s2: PlainState, b: string, edits: map<string, Option<string>>)
    requires b in s0 && s1 == s0[b := s0[b].(edits := edits)]
    requires s2 == s1[b := s1[b].(committed := View(s1[b]), edits := map[])]
    ensures s2 == s0[b := s0[b].(committed := Patch(edits, s0[b].committed), edits := map[])]
    ensures View(s1[b]) == Patch(edits, s0[b].committed)
  {}

  lemma SavedTwiceAt(r0: Branches, r1: Branches, r2: Branches, b: string, h: Hash)
    requires b in r0 && b in r1 && r1 == r0[b := r0[b].(staged := r1[b].staged)]
    requires r2 == r1[b := r1[b].(staged := map[], tip := Some(h))]
    ensures r2 == r0[b := r0[b].(staged := map[], tip := Some(h))]
  {}

  lemma OneValue(k: string, v: string)
    ensures Patch(map[][k := Some(v)], map[]) == map[k := v]
  {}

  /** A new branch with one committed value. */
  method MakeBranch(w: Workspace, b: string, k: string, v: string) returns (tip: Hash)
    requires w.Valid() && w.agent.identity == Some(w.user) && b !in w.branches
    modifies w`branches, w`drawn, w`known, w.store, w.agent
    ensures w.Valid() && w.agent.identity == old(w.agent.identity)
    ensures b in w.agent.deks && forall c | c in old(w.agent.deks) :: c in w.agent.deks
    ensures w.branches == old(w.branches)[b := NEW_BRANCH.(tip := Some(tip))] && Parents(tip) == []
    ensures w.Plain() == old(w.Plain())[b := PlainBranch(map[k := v], map[], None, None)]
  {
    ghost var s, r := w.Plain(), w.branches;
    var created := w.BranchCreate(b, None, 0);
    assert w.branches == r[b := NEW_BRANCH] && w.Plain() == s[b := NEW_PLAIN_BRANCH];
    OneValue(k, v);
    tip := CommitValue(w, b, k, v);
    Twice(r, b, NEW_BRANCH, NEW_BRANCH.(tip := Some(tip)));
    Twice(s, b, NEW_PLAIN_BRANCH, PlainBranch(map[k := v], map[], None, None));
  }

  lemma Twice<K, V>(m: map<K, V>, k: K, x: V, y: V)
    ensures m[k := x][k := y] == m[k := y]
  {}

  /** The merge of two unrelated branches that disagree on their only key. */
  lemma OneConflict(s: PlainState, b: string, theirs: string, k: string, mine: string, other: string)
    requires b in s && theirs in s && mine != other
    requires s[b] == PlainBranch(map[k := mine], map[], None, None)
    requires s[theirs] == PlainBranch(map[k := other], map[], None, None)
    ensures MergeStart(s, b, theirs) == PlainMerge(theirs, map[], map[k := mine], map[k := other], map[], {k})
    ensures Session(MergeStart(s, b, theirs), []) == MergeStart(s, b, theirs)
    ensures Session(MergeStart(s, b, theirs), [Ours]).open == {}
  {
    assert Conflicts(map[], map[k := mine], map[k := other]) == {k};
    assert Useful([Ours]) == [Ours];
    EnoughAnswersFinish(MergeStart(s, b, theirs), [Ours]);
  }

  lemma RootsApart(oursTip: Hash, theirsTip: Hash, work: Hash, h: Hash)
    requires Parents(oursTip) == [] && Parents(theirsTip) == [] && Parents(work) == [oursTip]
               && Parents(h) == [oursTip, theirsTip]
    ensures oursTip in Ancestors(work) && work != oursTip && work != h && work !in Ancestors(theirsTip)
  {
    ParentIsAncestor(oursTip, work);
  }

  /** Two branches disagree on key `k`; merging stops at the prompt; another key `n` is committed to the
      branch; the merge is continued. Key `n` was in the committed map, and afterwards it is not in the
      view, nor is its commit in the branch's history. */
  method LoseWork(
    w: Workspace, b: string, theirs: string, k: string, n: string, mine: string, other: string, late: string)
    returns (work: Hash, ghost during: PlainState)
    requires w.Valid() && w.agent.identity == Some(w.user) && w.branches == map[]
    requires b != theirs && k != n && mine != other
    modifies w`branches, w`drawn, w`known, w.store, w.agent
    ensures w.Valid() && b in w.branches && w.branches[b].tip.Some?
    ensures b in during && Get(during[b].committed, n) == Some(late)
    ensures n !in View(PlainStateOf(w.Plain(), b)) && work !in Ancestors(w.branches[b].tip.value)
    ensures n in EntriesOf(work)
  {
    var oursTip := MakeBranch(w, b, k, mine);
    var theirsTip := MakeBranch(w, theirs, k, other);
    ghost var s0 := w.Plain();
    OneConflict(s0, b, theirs, k, mine, other);
    ghost var pm := MergeStart(s0, b, theirs);
    PauseAt(w, b, theirs, pm, oursTip, theirsTip);
    work := CommitValue(w, b, n, late);
    during := w.Plain();
    PatchGet(map[n := Some(late)], map[k := mine], n);
    OtherKeyGone(during[b], pm, [Ours], n);
    var h := FinishAt(w, b, pm, oursTip, theirsTip);
    RootsApart(oursTip, theirsTip, work, h);
    FinishedMergeKeepsWorkIff(w.store.files, w.known[b], h, Final(Session(pm, [Ours])), oursTip, theirsTip, w.user,
      work);
  }

  /** Start the merge and skip at the first prompt. */
  method PauseAt(
    w: Workspace, b: string, theirs: string, ghost pm: PlainMerge, ghost oursTip: Hash, ghost theirsTip: Hash)
    requires w.Valid() && w.Ready(b) && w.Ready(theirs) && b in w.branches && theirs in w.branches
    requires w.branches[b] == NEW_BRANCH.(tip := Some(oursTip)) && w.branches[theirs].tip == Some(theirsTip)
               && oursTip != theirsTip
    requires pm == MergeStart(w.Plain(), b, theirs) && pm.open != {} && Session(pm, []) == pm
    modifies w`branches, w`drawn, w`known, w.store, w.agent
    ensures w.Valid() && w.agent.State() == old(w.agent.State())
    ensures w.Plain() == WithMerge(old(w.Plain()), b, pm)
    ensures b in w.branches && w.branches[b].tip == Some(oursTip) && w.branches[b].merge.Some?
    ensures w.branches[b].merge.value.branch == theirs
    ensures w.branches[b].merge.value.oursTip == oursTip && w.branches[b].merge.value.theirsTip == theirsTip
  {
    var outcome := Merge(w, b, theirs, [], 0);
    assert outcome.Ok?;
    OpenIs(w.known, w.branches, b);
  }

  /** Answer the one open key and finish. */
  method FinishAt(w: Workspace, b: string, ghost pm: PlainMerge, ghost oursTip: Hash, ghost theirsTip: Hash)
    returns (h: Hash)
    requires w.Valid() && w.Ready(b) && b in w.branches && w.branches[b].merge.Some?
    requires w.Ready(w.branches[b].merge.value.branch)
    requires w.branches[b].merge.value.oursTip == oursTip && w.branches[b].merge.value.theirsTip == theirsTip
    requires b in w.Plain() && w.Plain()[b].merge == Some(pm) && Session(pm, [Ours]).open == {}
    modifies w`branches, w`drawn, w`known, w.store, w.agent
    ensures w.Valid() && w.agent.State() == old(w.agent.State())
    ensures b in w.branches && w.branches[b].tip == Some(h) && Parents(h) == [oursTip, theirsTip]
    ensures w.Plain() == old(w.Plain())[b := AfterSession(old(w.Plain())[b], Session(pm, [Ours]))]
    ensures Commits(w.store.files, w.known[b], h, Final(Session(pm, [Ours])), [oursTip, theirsTip], w.user)
  {
    var outcome := MergeContinue(w, b, [Ours], 0);
    assert outcome.Ok?;
    return outcome.value.commit;
  }

  /** The run from nothing: one person, two new branches. */
  method PausedMergeLosesWork() returns (w: Workspace, work: Hash, ghost during: PlainState)
    ensures w.Valid() && "main" in w.branches && w.branches["main"].tip.Some?
    ensures "main" in during && Get(during["main"].committed, "NEW") == Some("3") && "NEW" in EntriesOf(work)
    ensures "NEW" !in View(PlainStateOf(w.Plain(), "main")) && work !in Ancestors(w.branches["main"].tip.value)
  {
    var agent := new Agent();
    var response := agent.HandleRequest(Login(WrappedPrivateKey(1, ""), ""), 0);
    w := new Workspace(agent, 1, 0);
    work, during := LoseWork(w, "main", "dev", "KEY", "NEW", "1", "2", "3");
  }
}
