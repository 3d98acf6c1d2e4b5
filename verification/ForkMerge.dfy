// What merging two branches does over a run of commands: which values it starts from, which keys it
// asks for, and what each answer commits.
module ForkMerge {
  import opened Wrappers
  import opened KeyOrder
  import opened ThreeWay
  import opened LocalState
  import opened MergeSession
  import opened Workspace
  import opened Merging
  import opened BranchMachine

  /** The keys that two maps both changed away from a third, and differently, in key order. */
  ghost predicate BothChanged(base: Plain, ours: Plain, theirs: Plain, keys: seq<string>) {
    && Increasing(keys)
    && forall k :: k in keys <==>
         Get(ours, k) != Get(base, k) && Get(theirs, k) != Get(base, k) && Get(ours, k) != Get(theirs, k)
  }

  /** What answers leave of a branch whose committed map was `ours`: paused at the first key without an
      answer, or committed. Then each key that both sides changed has what its answer says, and every
      other key has the value of the side that changed it. */
  ghost predicate MergedOver(
    base: Plain, ours: Plain, theirs: Plain, keys: seq<string>, answers: seq<Answer>, n: nat,
    before: PlainBranch, after: PlainBranch)
  {
    && n <= |keys| && n <= |answers| && after.edits == before.edits && after.fork == before.fork
    && if n < |keys| then
         && after.committed == ours && after.merge.Some?
         && forall k :: k in after.merge.value.open <==> k in keys[n..]
       else
         && after.merge.None?
         && (forall i | 0 <= i < n ::
               && (answers[i].Ours? ==> Get(after.committed, keys[i]) == Get(ours, keys[i]))
               && (answers[i].Theirs? ==> Get(after.committed, keys[i]) == Get(theirs, keys[i]))
               && (answers[i].Manual? ==> Get(after.committed, keys[i]) == Some(answers[i].text)))
         && forall k | k !in keys ::
              Get(after.committed, k) == if Get(ours, k) == Get(base, k) then Get(theirs, k) else Get(ours, k)
  }

  lemma BothChangedLists(base: Plain, ours: Plain, theirs: Plain, keys: seq<string>)
    requires BothChanged(base, ours, theirs, keys)
    ensures Lists(keys, Conflicts(base, ours, theirs))
  {
    var all := Conflicts(base, ours, theirs);
    forall k ensures k in keys <==> k in all {
      assert k in all ==> k in Union(base, ours, theirs);
    }
    SortedUnique(keys, all);
    SortedLists(all);
  }

  /** A finished session over a fresh merge has merged the two sides. */
  lemma SessionMerges(pm: PlainMerge, keys: seq<string>, answers: seq<Answer>, before: PlainBranch)
    requires Fresh(pm) && Lists(keys, pm.open) && Taken(answers, |keys|, |keys|)
    requires Session(pm, answers).open == {}
    ensures MergedOver(pm.base, pm.ours, pm.theirs, keys, answers, |keys|, before,
                       AfterSession(before, Session(pm, answers)))
  {
    FinalIsRulePlusAnswers(pm, answers, keys);
  }

  lemma MergeFrom(
    s: PlainState, b: string, theirs: string, base: Plain, keys: seq<string>, answers: seq<Answer>, n: nat, t: int)
    requires ForkBase(s, b, theirs) == base
    requires BothChanged(base, PlainStateOf(s, b).committed, PlainStateOf(s, theirs).committed, keys)
    requires Taken(answers, |keys|, n)
    ensures MergedOver(base, PlainStateOf(s, b).committed, PlainStateOf(s, theirs).committed, keys, answers, n,
                       PlainStateOf(s, b), PlainStateOf(Effect(s, DoMerge(b, theirs, answers, t)), b))
  {
    var pm := MergeStart(s, b, theirs);
    BothChangedLists(base, pm.ours, pm.theirs, keys);
    LaterStayOpen(pm, answers, keys, n);
    ListsExactly(keys[n..], Session(pm, answers).open);
    if n == |keys| {
      SessionMerges(pm, keys, answers, PlainStateOf(s, b));
    }
  }

  // ---- Over runs --------------------------------------------------------------------------------

  /** No command of the run creates this branch; of an existing one that is so anyway. */
  predicate KeepsRecord(done: seq<Command>, b: string) {
    forall c | c in done :: !(c.DoCreate? && c.branch == b)
  }

  lemma {:induction false} RecordStays(s: PlainState, done: seq<Command>, b: string)
    requires KeepsRecord(done, b)
    ensures PlainStateOf(Replay(s, done), b).fork == PlainStateOf(s, b).fork
    decreases |done|
  {
    if done != [] {
      var init, c := done[..|done| - 1], done[|done| - 1];
      assert c in done && forall d | d in init :: d in done;
      RecordStays(s, init, b);
    }
  }

  /** Main result: once `fork` was created from `source`, and whatever happened since, merging it back asks
      exactly for the keys that both sides changed away from what the source had committed at the fork, and
      differently; any other key takes the value of the side that changed it. */
  lemma ForkMergesBack(
    s: PlainState, source: string, fork: string, t0: int, done: seq<Command>, keys: seq<string>,
    answers: seq<Answer>, n: nat, t: int)
    requires fork !in s && fork != source && KeepsRecord(done, fork)
    requires var now := Replay(Effect(s, DoCreate(fork, Some(source), t0)), done);
             BothChanged(PlainStateOf(s, source).committed, PlainStateOf(now, source).committed,
                         PlainStateOf(now, fork).committed, keys)
    requires Taken(answers, |keys|, n)
    ensures var now := Replay(Effect(s, DoCreate(fork, Some(source), t0)), done);
            var after := PlainStateOf(Effect(now, DoMerge(source, fork, answers, t)), source);
            MergedOver(PlainStateOf(s, source).committed, PlainStateOf(now, source).committed,
                       PlainStateOf(now, fork).committed, keys, answers, n, PlainStateOf(now, source), after)
  {
    var now := Replay(Effect(s, DoCreate(fork, Some(source), t0)), done);
    RecordStays(Effect(s, DoCreate(fork, Some(source), t0)), done, fork);
    MergeFrom(now, source, fork, PlainStateOf(s, source).committed, keys, answers, n, t);
  }

  /** ... and so does merging the source into the fork, unless the source was itself recorded as forked
      from a branch of the fork's name. */
  lemma SourceMergesIntoFork(
    s: PlainState, source: string, fork: string, t0: int, done: seq<Command>, keys: seq<string>,
    answers: seq<Answer>, n: nat, t: int)
    requires fork !in s && fork != source && KeepsRecord(done, fork) && KeepsRecord(done, source)
    requires PlainStateOf(s, source).fork.Some? ==> PlainStateOf(s, source).fork.value.branch != fork
    requires var now := Replay(Effect(s, DoCreate(fork, Some(source), t0)), done);
             BothChanged(PlainStateOf(s, source).committed, PlainStateOf(now, fork).committed,
                         PlainStateOf(now, source).committed, keys)
    requires Taken(answers, |keys|, n)
    ensures var now := Replay(Effect(s, DoCreate(fork, Some(source), t0)), done);
            var after := PlainStateOf(Effect(now, DoMerge(fork, source, answers, t)), fork);
            MergedOver(PlainStateOf(s, source).committed, PlainStateOf(now, fork).committed,
                       PlainStateOf(now, source).committed, keys, answers, n, PlainStateOf(now, fork), after)
  {
    var now := Replay(Effect(s, DoCreate(fork, Some(source), t0)), done);
    RecordStays(Effect(s, DoCreate(fork, Some(source), t0)), done, fork);
    RecordStays(Effect(s, DoCreate(fork, Some(source), t0)), done, source);
    MergeFrom(now, fork, source, PlainStateOf(s, source).committed, keys, answers, n, t);
  }

  /** In that case the older record is the base. */
  lemma OlderRecordIsTheBase(
    s: PlainState, source: string, fork: string, t0: int, done: seq<Command>, keys: seq<string>,
    answers: seq<Answer>, n: nat, t: int)
    requires fork !in s && fork != source && KeepsRecord(done, fork) && KeepsRecord(done, source)
    requires PlainStateOf(s, source).fork.Some? && PlainStateOf(s, source).fork.value.branch == fork
    requires var now := Replay(Effect(s, DoCreate(fork, Some(source), t0)), done);
             BothChanged(PlainStateOf(s, source).fork.value.root, PlainStateOf(now, fork).committed,
                         PlainStateOf(now, source).committed, keys)
    requires Taken(answers, |keys|, n)
    ensures var now := Replay(Effect(s, DoCreate(fork, Some(source), t0)), done);
            var after := PlainStateOf(Effect(now, DoMerge(fork, source, answers, t)), fork);
            MergedOver(PlainStateOf(s, source).fork.value.root, PlainStateOf(now, fork).committed,
                       PlainStateOf(now, source).committed, keys, answers, n, PlainStateOf(now, fork), after)
  {
    var now := Replay(Effect(s, DoCreate(fork, Some(source), t0)), done);
    RecordStays(Effect(s, DoCreate(fork, Some(source), t0)), done, source);
    MergeFrom(now, fork, source, PlainStateOf(s, source).fork.value.root, keys, answers, n, t);
  }

  /** `b` is not recorded as a fork of `other`. */
  predicate NotForkOf(s: PlainState, b: string, other: string) {
    PlainStateOf(s, b).fork.Some? ==> PlainStateOf(s, b).fork.value.branch != other
  }

  lemma {:induction false} StaysUnrelated(s: PlainState, done: seq<Command>, b: string, other: string)
    requires NotForkOf(s, b, other)
    requires forall c | c in done :: !(c.DoCreate? && c.branch == b && c.from == Some(other))
    ensures NotForkOf(Replay(s, done), b, other)
    decreases |done|
  {
    if done != [] {
      var init, c := done[..|done| - 1], done[|done| - 1];
      assert c in done && forall d | d in init :: d in done;
      StaysUnrelated(s, init, b, other);
    }
  }

  /** Branches of which neither was forked from the other merge over an empty base: every key they
      disagree on is asked for, and nothing that only one has is dropped. */
  lemma UnrelatedMerge(
    done: seq<Command>, b: string, other: string, keys: seq<string>, answers: seq<Answer>, n: nat, t: int)
    requires forall c | c in done :: !(c.DoCreate? && c.branch == b && c.from == Some(other))
    requires forall c | c in done :: !(c.DoCreate? && c.branch == other && c.from == Some(b))
    requires var now := Replay(map[], done);
             BothChanged(map[], PlainStateOf(now, b).committed, PlainStateOf(now, other).committed, keys)
    requires Taken(answers, |keys|, n)
    ensures var now := Replay(map[], done);
            var after := PlainStateOf(Effect(now, DoMerge(b, other, answers, t)), b);
            MergedOver(map[], PlainStateOf(now, b).committed, PlainStateOf(now, other).committed, keys, answers, n,
                       PlainStateOf(now, b), after)
  {
    StaysUnrelated(map[], done, b, other);
    StaysUnrelated(map[], done, other, b);
    MergeFrom(Replay(map[], done), b, other, map[], keys, answers, n, t);
  }

  /** Answering every prompt with ours leaves every conflicting key as we had it; likewise theirs. */
  lemma OneSidedAnswers(
    base: Plain, ours: Plain, theirs: Plain, keys: seq<string>, answers: seq<Answer>, before: PlainBranch,
    after: PlainBranch)
    requires MergedOver(base, ours, theirs, keys, answers, |keys|, before, after) && |answers| >= |keys|
    ensures (forall a | a in answers :: a.Ours?) ==>
              forall k | k in keys :: Get(after.committed, k) == Get(ours, k)
    ensures (forall a | a in answers :: a.Theirs?) ==>
              forall k | k in keys :: Get(after.committed, k) == Get(theirs, k)
  {
    forall i | 0 <= i < |keys| ensures answers[i] in answers {}
  }
}
