// Conflict resolution as its user sees it: a list of answers, one prompt at a time in key order,
// interrupted and resumed at will.
module MergeSession {
  import opened Wrappers
  import opened KeyOrder
  import opened ThreeWay
  import opened LocalState
  import opened MergeSummary

  /** One answer at the prompt. The end of the list is the end of the input, which counts as a skip. */
  datatype Answer = Ours | Theirs | Manual(text: string) | Skip

  function Chosen(a: Answer, ours: Option<string>, theirs: Option<string>): Option<string> {
    match a
    case Ours => ours
    case Theirs => theirs
    case Manual(text) => Some(text)
    case Skip => None
  }

  /** Settle the first open key. */
  ghost function Settle(pm: PlainMerge, a: Answer): PlainMerge
    requires pm.open != {}
  {
    var k := First(pm.open);
    pm.(open := pm.open - {k}, resolved := pm.resolved[k := Chosen(a, Get(pm.ours, k), Get(pm.theirs, k))])
  }

  /** One session at the prompt. */
  ghost function Session(pm: PlainMerge, answers: seq<Answer>): PlainMerge
    decreases |answers|
  {
    if pm.open == {} || answers == [] || answers[0].Skip? then pm
    else Session(Settle(pm, answers[0]), answers[1..])
  }

  /** The answers of a session that count: those before the first skip. */
  function Useful(answers: seq<Answer>): seq<Answer> {
    if answers == [] || answers[0].Skip? then [] else [answers[0]] + Useful(answers[1..])
  }

  /** Every state of a merge keeps answered and open keys disjoint with union the original conflicts. */
  lemma {:induction false} SessionKeepsPartition(pm: PlainMerge, answers: seq<Answer>)
    requires PartitionsConflicts(pm)
    ensures PartitionsConflicts(Session(pm, answers))
    ensures Session(pm, answers).(resolved := pm.resolved, open := pm.open) == pm
    decreases |answers|
  {
    if pm.open != {} && answers != [] && !answers[0].Skip? {
      var k := First(pm.open);
      assert Settle(pm, answers[0]).resolved.Keys == pm.resolved.Keys + {k};
      SessionKeepsPartition(Settle(pm, answers[0]), answers[1..]);
    }
  }

  /** Pausing after some answers and resuming with others is one session with all of them. */
  lemma {:induction false} ResumingIsContinuing(pm: PlainMerge, first: seq<Answer>, second: seq<Answer>)
    ensures Session(Session(pm, first), second) == Session(pm, Useful(first) + second)
    decreases |first|
  {
    if first == [] || first[0].Skip? {
      assert Useful(first) + second == second;
    } else if pm.open != {} {
      assert Useful(first) + second == [first[0]] + (Useful(first[1..]) + second);
      ResumingIsContinuing(Settle(pm, first[0]), first[1..], second);
    }
  }

  ghost function Sessions(pm: PlainMerge, sessions: seq<seq<Answer>>): PlainMerge
    decreases |sessions|
  {
    if sessions == [] then pm else Sessions(Session(pm, sessions[0]), sessions[1..])
  }

  function Joined(sessions: seq<seq<Answer>>): seq<Answer> {
    if sessions == [] then [] else Useful(sessions[0]) + Joined(sessions[1..])
  }

  /** Main result: a merge paused and continued any number of times ends where one session giving the
      same answers would have ended. */
  lemma {:induction false} PausesDoNotMatter(pm: PlainMerge, sessions: seq<seq<Answer>>)
    ensures Sessions(pm, sessions) == Session(pm, Joined(sessions))
    decreases |sessions|
  {
    if sessions != [] {
      PausesDoNotMatter(Session(pm, sessions[0]), sessions[1..]);
      ResumingIsContinuing(pm, sessions[0], Joined(sessions[1..]));
    }
  }

  /** The state saved after `n` answers loses nothing but the answer in flight: going on from it with
      the rest gives what the uninterrupted session gives. */
  lemma CrashLosesOneAnswer(pm: PlainMerge, answers: seq<Answer>, n: nat)
    requires n <= |Useful(answers)|
    ensures Session(Session(pm, Useful(answers)[..n]), Useful(answers)[n..]) == Session(pm, answers)
  {
    var u := Useful(answers);
    UsefulIdempotent(answers, n);
    ResumingIsContinuing(pm, u[..n], u[n..]);
    assert u[..n] + u[n..] == u;
    ResumingIsContinuing(pm, answers, []);
    assert u + [] == u;
  }

  lemma {:induction false} UsefulIdempotent(answers: seq<Answer>, n: nat)
    requires n <= |Useful(answers)|
    ensures Useful(Useful(answers)[..n]) == Useful(answers)[..n]
    decreases |answers|
  {
    if n > 0 {
      UsefulIdempotent(answers[1..], n - 1);
      assert Useful(answers)[..n] == [answers[0]] + Useful(answers[1..])[..n - 1];
    }
  }

  lemma {:induction false} UsefulIsPrefix(answers: seq<Answer>)
    ensures var n := |Useful(answers)|;
            && n <= |answers| && Useful(answers) == answers[..n]
            && (n < |answers| ==> answers[n].Skip?)
            && forall i | 0 <= i < n :: !answers[i].Skip?
  {
    if answers != [] && !answers[0].Skip? {
      UsefulIsPrefix(answers[1..]);
      assert answers == [answers[0]] + answers[1..];
    }
  }

  /** The states a session saves, one after each answer. */
  ghost function States(pm: PlainMerge, answers: seq<Answer>): seq<PlainMerge>
    decreases |answers|
  {
    if pm.open == {} || answers == [] || answers[0].Skip? then []
    else [Settle(pm, answers[0])] + States(Settle(pm, answers[0]), answers[1..])
  }

  /** The state saved after `k + 1` answers is the session of those answers. */
  lemma {:induction false} StateAt(pm: PlainMerge, answers: seq<Answer>, k: nat)
    requires k < |States(pm, answers)|
    ensures k < |Useful(answers)| && States(pm, answers)[k] == Session(pm, Useful(answers)[..k + 1])
    decreases |answers|
  {
    var next := Settle(pm, answers[0]);
    if k > 0 {
      StateAt(next, answers[1..], k - 1);
    }
    assert Useful(answers)[..k + 1] == [answers[0]] + Useful(answers[1..])[..k];
    assert (Useful(answers)[..k + 1])[1..] == Useful(answers[1..])[..k];
  }

  /** The merge before the first answer and after each one. */
  ghost function Line(pm: PlainMerge, answers: seq<Answer>): seq<PlainMerge> {
    [pm] + States(pm, answers)
  }

  /** The prompt loop over the sorted open keys follows that line: after `i` answers it asks for key
      `i`, goes on exactly if there is such a key and an answer for it that is not a skip, and stops
      where the session stops. */
  lemma {:induction false} LineAt(
    pm: PlainMerge, answers: seq<Answer>, keys: seq<string>, line: seq<PlainMerge>, i: nat)
    requires line == Line(pm, answers) && Lists(keys, pm.open) && i < |line|
    ensures i <= |keys| && i <= |answers|
    ensures i < |keys| ==> line[i].open != {} && keys[i] == First(line[i].open)
    ensures i + 1 < |line| <==> i < |keys| && i < |answers| && !answers[i].Skip?
    ensures i + 1 < |line| ==> line[i + 1] == Settle(line[i], answers[i])
    ensures i + 1 == |line| ==> line[i] == Session(pm, answers)
    decreases |answers|
  {
    if i > 0 {
      var next := Settle(pm, answers[0]);
      LineAt(next, answers[1..], keys[1..], Line(next, answers[1..]), i - 1);
      assert line == [pm] + Line(next, answers[1..]);
    }
  }

  /** A session settles everything exactly when it has as many answers, before any skip, as there are
      open keys. */
  lemma {:induction false} EnoughAnswersFinish(pm: PlainMerge, answers: seq<Answer>)
    ensures Session(pm, answers).open == {} <==> |Useful(answers)| >= |pm.open|
    decreases |answers|
  {
    if pm.open != {} && answers != [] && !answers[0].Skip? {
      assert |pm.open - {First(pm.open)}| == |pm.open| - 1;
      EnoughAnswersFinish(Settle(pm, answers[0]), answers[1..]);
    }
  }

  /** What was answered once is not asked or changed again. */
  lemma {:induction false} AnsweredStays(pm: PlainMerge, answers: seq<Answer>, k: string)
    requires k in pm.resolved && k !in pm.open
    ensures k in Session(pm, answers).resolved && Session(pm, answers).resolved[k] == pm.resolved[k]
    decreases |answers|
  {
    if pm.open != {} && answers != [] && !answers[0].Skip? {
      AnsweredStays(Settle(pm, answers[0]), answers[1..], k);
    }
  }

  /** The `i`-th answer is for the `i`-th open key, and settles it as chosen. */
  lemma {:induction false} AnswerIsForItsKey(pm: PlainMerge, answers: seq<Answer>, keys: seq<string>, i: nat)
    requires Lists(keys, pm.open) && pm.resolved.Keys !! pm.open && i < |keys| && i < |Useful(answers)|
    ensures i < |answers|
    ensures var k, resolved := keys[i], Session(pm, answers).resolved;
            k in resolved && resolved[k] == Chosen(answers[i], Get(pm.ours, k), Get(pm.theirs, k))
    decreases |answers|
  {
    var next := Settle(pm, answers[0]);
    if i == 0 {
      AnsweredStays(next, answers[1..], keys[0]);
    } else {
      AnswerIsForItsKey(next, answers[1..], keys[1..], i - 1);
    }
  }

  /** A session takes `n` of its answers: as many as there are open keys, or all, or all before the
      first skip. */
  ghost predicate Taken(answers: seq<Answer>, open: nat, n: nat) {
    && n <= open && n <= |answers| && (forall j | 0 <= j < n :: !answers[j].Skip?)
    && (n == open || n == |answers| || answers[n].Skip?)
  }

  /** It leaves exactly the later keys open. */
  lemma {:induction false} LaterStayOpen(pm: PlainMerge, answers: seq<Answer>, keys: seq<string>, n: nat)
    requires Lists(keys, pm.open) && Taken(answers, |keys|, n)
    ensures Lists(keys[n..], Session(pm, answers).open)
    decreases n
  {
    ListsExactly(keys, pm.open);
    if n > 0 {
      LaterStayOpen(Settle(pm, answers[0]), answers[1..], keys[1..], n - 1);
      assert keys[1..][n - 1..] == keys[n..];
    }
  }

  // ---- The final map ----------------------------------------------------------------------------

  /** What the three-way rule settles by itself. */
  ghost function Automatic(pm: PlainMerge): map<string, Option<string>> {
    var merged := Merged(pm.base, pm.ours, pm.theirs);
    map k | k in merged && merged[k].Resolved? :: merged[k].value
  }

  /** The map a finished merge commits. */
  ghost function Final(pm: PlainMerge): Plain {
    Present(Automatic(pm) + pm.resolved)
  }

  /** Answering changes neither side, so what the rule settles by itself stays what it is. */
  lemma {:induction false} SessionKeepsSides(pm: PlainMerge, answers: seq<Answer>)
    ensures Session(pm, answers).ours == pm.ours && Automatic(Session(pm, answers)) == Automatic(pm)
    decreases |answers|
  {
    if pm.open != {} && answers != [] && !answers[0].Skip? {
      SessionKeepsSides(Settle(pm, answers[0]), answers[1..]);
    }
  }

  lemma FinalOfSettled(pm: PlainMerge, k: string)
    requires PartitionsConflicts(pm) && pm.open == {}
    ensures k in Conflicts(pm.base, pm.ours, pm.theirs) ==> k in pm.resolved && Get(Final(pm), k) == pm.resolved[k]
    ensures k !in Conflicts(pm.base, pm.ours, pm.theirs) ==>
              Rule(Get(pm.base, k), Get(pm.ours, k), Get(pm.theirs, k)) == Resolved(Get(Final(pm), k))
  {
    ConflictsExactly(pm.base, pm.ours, pm.theirs, k);
  }

  /** A merge before its first answer. */
  ghost predicate Fresh(pm: PlainMerge) {
    pm.resolved == map[] && pm.open == Conflicts(pm.base, pm.ours, pm.theirs)
  }

  lemma FinalAtConflict(pm: PlainMerge, answers: seq<Answer>, keys: seq<string>, i: nat)
    requires Fresh(pm) && Lists(keys, pm.open) && Session(pm, answers).open == {}
    requires i < |keys| && i < |Useful(answers)| && i < |answers| && keys[i] in pm.open
    ensures Get(Final(Session(pm, answers)), keys[i]) ==
              Chosen(answers[i], Get(pm.ours, keys[i]), Get(pm.theirs, keys[i]))
  {
    SessionKeepsPartition(pm, answers);
    AnswerIsForItsKey(pm, answers, keys, i);
    FinalOfSettled(Session(pm, answers), keys[i]);
  }

  lemma FinalElsewhere(pm: PlainMerge, answers: seq<Answer>, k: string)
    requires Fresh(pm) && Session(pm, answers).open == {} && k !in pm.open
    ensures Rule(Get(pm.base, k), Get(pm.ours, k), Get(pm.theirs, k)) == Resolved(Get(Final(Session(pm, answers)), k))
  {
    SessionKeepsPartition(pm, answers);
    FinalOfSettled(Session(pm, answers), k);
  }

  /** A map key by key: for the `i`-th conflicting key what the `i`-th answer chose, and the three-way
      rule for every other key. */
  ghost predicate RulePlusAnswers(pm: PlainMerge, answers: seq<Answer>, keys: seq<string>, m: Plain) {
    && |keys| <= |Useful(answers)| <= |answers|
    && (forall i | 0 <= i < |keys| ::
          Get(m, keys[i]) == Chosen(answers[i], Get(pm.ours, keys[i]), Get(pm.theirs, keys[i])))
    && forall k | k !in keys :: Rule(Get(pm.base, k), Get(pm.ours, k), Get(pm.theirs, k)) == Resolved(Get(m, k))
  }

  /** What one session over a fresh merge commits, with its conflicting keys in key order. */
  lemma FinalIsRulePlusAnswers(pm: PlainMerge, answers: seq<Answer>, keys: seq<string>)
    requires Fresh(pm) && Lists(keys, pm.open) && Session(pm, answers).open == {}
    ensures RulePlusAnswers(pm, answers, keys, Final(Session(pm, answers)))
  {
    EnoughAnswersFinish(pm, answers);
    UsefulIsPrefix(answers);
    ListsExactly(keys, pm.open);
    forall i | 0 <= i < |keys|
      ensures Get(Final(Session(pm, answers)), keys[i]) ==
                Chosen(answers[i], Get(pm.ours, keys[i]), Get(pm.theirs, keys[i]))
    {
      assert keys[i] in keys;
      FinalAtConflict(pm, answers, keys, i);
    }
    forall k | k !in keys
      ensures Rule(Get(pm.base, k), Get(pm.ours, k), Get(pm.theirs, k)) == Resolved(Get(Final(Session(pm, answers)), k))
    {
      FinalElsewhere(pm, answers, k);
    }
  }

  /** Every key of the three maps is accounted for in the outcome. */
  lemma EveryKeyIsSettled(pm: PlainMerge)
    requires PartitionsConflicts(pm) && pm.open == {}
    ensures (Automatic(pm) + pm.resolved).Keys == Union(pm.base, pm.ours, pm.theirs)
  {
    forall k ensures k in Automatic(pm) + pm.resolved <==> k in Union(pm.base, pm.ours, pm.theirs) {
      ConflictsExactly(pm.base, pm.ours, pm.theirs, k);
    }
  }
}
