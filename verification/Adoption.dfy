// Pulling a branch and moving to what was pulled: histories made on other machines enter a workspace.
module Adoption {
  import opened Wrappers
  import opened Objects
  import opened History
  import opened Vcs
  import opened Pull
  import opened PullGuarantees
  import opened LocalState
  import opened Workspace

  /** Pull a branch; on a fast-forward its tip becomes the remote one. The workspace stays in order exactly
      if that tip is readable under the branch's key and soundly stored, and then shows its values. */
  method PullAndAdopt(w: Workspace, remote: Remote, b: string) returns (r: Result<PullOutcome, SyncError>)
    requires w.Valid()
    modifies w`branches, w.store
    ensures Extends(old(w.store.files), w.store.files)
    ensures r.Ok? <==> PullWorks(remote, old(w.store.files), StateOf(old(w.branches), b).tip)
    ensures w.branches == if r.Ok? && r.value.FastForward?
                          then old(w.branches)[b := StateOf(old(w.branches), b).(tip := Some(r.value.newTip))]
                          else old(w.branches)
    ensures r.Ok? && r.value.FastForward? ==>
              var before, tip := StateOf(old(w.branches), b).tip, r.value.newTip;
              && remote.ref == Some(tip) && (before.None? || OnMainline(before.value, tip))
              && (w.Valid() <==> TipOk(w.store.files, w.known, b, tip))
              && (w.Valid() ==> w.Plain() == old(w.Plain())[b :=
                    PlainStateOf(old(w.Plain()), b).(committed := PlainOf(w.known[b], EntriesOf(tip)))])
    ensures r.Err? || !r.value.FastForward? ==> w.Valid() && w.Plain() == old(w.Plain())
  {
    ghost var files := w.store.files;
    r := PullBranch(remote, w.store, StateOf(w.branches, b).tip);
    if remote.ref.Some? {
      IntactAfter(files, w.store.files, MainlineReach(remote.ref.value), remote);
    }
    StoreGrew(files, w.known, w.branches, w.store.files);
    if r.Ok? && r.value.FastForward? {
      ghost var bs := StateOf(w.branches, b);
      if TipOk(w.store.files, w.known, b, r.value.newTip) {
        NewTip(w.store.files, w.known, w.branches, w.store.files, b, r.value.newTip, bs.staged);
      }
      w.branches := w.branches[b := StateOf(w.branches, b).(tip := Some(r.value.newTip))];
      assert w.Valid() ==> BranchOk(w.store.files, w.known, w.branches, b);
    }
  }

  /** What a complete pull of a linear, well-typed history gives, if its values are sealed under the
      branch's key, is a tip to work on. */
  lemma CompletePullIsAdoptable(files: Files, known: Deks, b: string, tip: Hash)
    requires Intact(files) && MainlineHeld(files, tip) && Linear(tip) && WellTyped(tip)
    requires b in known && forall k | k in EntriesOf(tip) :: Opens(known[b], EntriesOf(tip)[k]).Some?
    ensures TipOk(files, known, b, tip)
  {
    LinearReach(tip);
    forall h | h in MainlineReach(tip) ensures Holds(files, h) {
      var c :| c in Mainline(tip) && h in Own(c);
      HeldBelow(files, tip, c);
    }
    assert tip in Ancestors(tip);
  }
}
