// Many clients over one server. Each client commits locally, fetches, adopts refs it has looked at,
// collects what to send, uploads it one object at a time and finally swaps the ref; steps of different
// clients interleave freely and a client may stop at any point.
module Replication {
  import opened Wrappers
  import opened Objects
  import opened History
  import opened Server
  import opened Push

  datatype Phase =
    | Idle
    | Looked(branch: string, seen: Option<Hash>)
    | Pushing(branch: string, seen: Option<Hash>, tip: Hash, todo: seq<Hash>)

  /** `tips` are the commits the client has made or adopted. */
  datatype Client = Client(files: Files, tips: set<Hash>, phase: Phase)

  datatype System = System(objects: Files, refs: map<string, Hash>, clients: map<nat, Client>)

  datatype Step =
    | Fetch(client: nat, files: Files)
    | CommitTip(client: nat, tip: Hash)
    | Adopt(client: nat)
    | LookRef(client: nat, branch: string)
    | Collect(client: nat, tip: Hash, todo: seq<Hash>)
    | UploadNext(client: nat)
    | Swap(client: nat)
    | Die(client: nat)
    | RotateBatch(batch: seq<Upload>)

  function SetPhase(s: System, c: nat, phase: Phase): System
    requires c in s.clients
  {
    s.(clients := s.clients[c := s.clients[c].(phase := phase)])
  }

  /** When a step may happen. A store may grow in any way at any time: what is fetched by a pull that
      fails stays. A commit is made over held objects and the client's own tips; a tip is adopted from a
      ref that was looked at; and what is collected is what the collecting walk guarantees. */
  ghost predicate Enabled(s: System, step: Step) {
    match step
    case Fetch(c, files) => c in s.clients && Extends(s.clients[c].files, files)
    case CommitTip(c, tip) =>
      && c in s.clients && TypedCommit(tip)
      && (forall p | p in Parents(tip) :: p in s.clients[c].tips)
      && forall h | h in Own(tip) :: Holds(s.clients[c].files, h)
    case Adopt(c) => c in s.clients && s.clients[c].phase.Looked? && s.clients[c].phase.seen.Some?
    case LookRef(c, b) => c in s.clients && s.clients[c].phase == Idle
    case Collect(c, tip, todo) =>
      && c in s.clients && s.clients[c].phase.Looked?
      && tip in s.clients[c].tips && s.clients[c].phase.seen != Some(tip)
      && CoversPush(s.clients[c].files, tip, s.clients[c].phase.seen, todo)
    case UploadNext(c) =>
      && c in s.clients && s.clients[c].phase.Pushing? && s.clients[c].phase.todo != []
      && Holds(s.clients[c].files, s.clients[c].phase.todo[0])
    case Swap(c) => c in s.clients && s.clients[c].phase.Pushing? && s.clients[c].phase.todo == []
    case Die(c) => c in s.clients
    case RotateBatch(batch) => forall u | u in batch :: Acceptable(u)
  }

  function Apply(s: System, step: Step): System
    requires Enabled(s, step)
  {
    match step
    case Fetch(c, files) => s.(clients := s.clients[c := s.clients[c].(files := files)])
    case CommitTip(c, tip) => s.(clients := s.clients[c := s.clients[c].(tips := s.clients[c].tips + {tip})])
    case Adopt(c) =>
      var client := s.clients[c];
      s.(clients := s.clients[c := client.(tips := client.tips + {client.phase.seen.value}, phase := Idle)])
    case LookRef(c, b) => SetPhase(s, c, Looked(b, RefOf(s.refs, b)))
    case Collect(c, tip, todo) =>
      SetPhase(s, c, Pushing(s.clients[c].phase.branch, s.clients[c].phase.seen, tip, todo))
    case UploadNext(c) =>
      var p := s.clients[c].phase;
      SetPhase(s.(objects := Insert(s.objects, p.todo[0], s.clients[c].files[p.todo[0]])), c, p.(todo := p.todo[1..]))
    case Swap(c) =>
      var p := s.clients[c].phase;
      var moved := MoveReplyTo(s.objects, s.refs, p.branch, p.seen, p.tip) == Moved;
      SetPhase(if moved then s.(refs := s.refs[p.branch := p.tip]) else s, c, Idle)
    case Die(c) => SetPhase(s, c, Idle)
    case RotateBatch(batch) => s.(objects := InsertAll(s.objects, batch))
  }

  /** A ref value: everything it reaches is stored, each hash as the kind of object it is used for. */
  ghost predicate RefOk(objects: Files, tip: Hash) {
    Complete(objects, tip) && WellTyped(tip)
  }

  /** Everything a client has promised about the push it is in the middle of. */
  ghost predicate PhaseOk(objects: Files, phase: Phase) {
    match phase
    case Idle => true
    case Looked(_, seen) => seen.Some? ==> RefOk(objects, seen.value)
    case Pushing(_, seen, tip, todo) =>
      && (seen.Some? ==> RefOk(objects, seen.value))
      && WellTyped(tip) && forall h | h in Reach(tip) :: Holds(objects, h) || h in todo
  }

  /** Each commit of each of the client's tips is fully held by it, or complete on the server. */
  ghost predicate ClientOk(objects: Files, client: Client) {
    && PhaseOk(objects, client.phase)
    && forall tip | tip in client.tips :: WellTyped(tip) && Backed(objects, client.files, tip)
  }

  /** The safety property and what it rests on: every ref points at a commit all of whose history,
      trees and blobs are on the server. */
  ghost predicate Inv(s: System) {
    && Intact(s.objects)
    && (forall b | b in s.refs :: RefOk(s.objects, s.refs[b]))
    && (forall c | c in s.clients :: ClientOk(s.objects, s.clients[c]))
  }

  /** Nothing pushed, nothing committed; clients may already hold objects. */
  ghost predicate Initial(s: System) {
    && s.objects == map[] && s.refs == map[]
    && forall c | c in s.clients :: s.clients[c].tips == {} && s.clients[c].phase == Idle
  }

  lemma PhaseOkMonotone(before: Files, after: Files, phase: Phase)
    requires Extends(before, after) && PhaseOk(before, phase)
    ensures PhaseOk(after, phase)
  {}

  lemma BackedMonotone(before: Files, after: Files, files: Files, files': Files, tip: Hash)
    requires Extends(before, after) && Extends(files, files') && Backed(before, files, tip)
    ensures Backed(after, files', tip)
  {
    forall c | c in Ancestors(tip) ensures (forall x | x in Own(c) :: Holds(files', x)) || Complete(after, c) {
      if !Complete(before, c) {
        assert forall x | x in Own(c) :: Holds(files, x);
      }
    }
  }

  lemma ClientOkMonotone(before: Files, after: Files, client: Client, client': Client)
    requires Extends(before, after) && Extends(client.files, client'.files)
    requires ClientOk(before, client) && client'.tips == client.tips && PhaseOk(after, client'.phase)
    ensures ClientOk(after, client')
  {
    forall tip | tip in client.tips ensures Backed(after, client'.files, tip) {
      BackedMonotone(before, after, client.files, client'.files, tip);
    }
  }

  /** A new commit over backed tips is backed. */
  lemma CommitIsBacked(objects: Files, client: Client, tip: Hash)
    requires ClientOk(objects, client) && TypedCommit(tip)
    requires forall p | p in Parents(tip) :: p in client.tips
    requires forall h | h in Own(tip) :: Holds(client.files, h)
    ensures WellTyped(tip) && Backed(objects, client.files, tip)
  {
    forall c | c in Ancestors(tip)
      ensures TypedCommit(c) && ((forall x | x in Own(c) :: Holds(client.files, x)) || Complete(objects, c))
    {
      if c != tip {
        var p :| p in Parents(tip) && c in Ancestors(p);
        assert WellTyped(p) && Backed(objects, client.files, p);
      }
    }
  }

  /** What is complete on the server backs whoever adopts it. */
  lemma RefIsBacked(objects: Files, files: Files, tip: Hash)
    requires RefOk(objects, tip)
    ensures Backed(objects, files, tip)
  {
    forall c | c in Ancestors(tip) ensures Complete(objects, c) { ReachMonotone(c, tip); }
  }

  /** Nothing but new verified objects ever reaches the server's object table. */
  lemma ObjectsOnlyGrow(s: System, step: Step)
    requires Intact(s.objects) && Enabled(s, step)
    ensures Extends(s.objects, Apply(s, step).objects) && Intact(Apply(s, step).objects)
  {
    match step
    case RotateBatch(batch) => InsertAllGrows(s.objects, batch);
    case _ =>
  }

  /** The client that takes a step is as it should be afterwards. */
  lemma ActorOk(s: System, step: Step)
    requires Inv(s) && Enabled(s, step) && !step.RotateBatch?
    ensures ClientOk(Apply(s, step).objects, Apply(s, step).clients[step.client])
  {
    ObjectsOnlyGrow(s, step);
    var t, client := Apply(s, step), s.clients[step.client];
    if step.CommitTip? {
      CommitIsBacked(s.objects, client, step.tip);
    } else if step.Adopt? {
      RefIsBacked(s.objects, client.files, client.phase.seen.value);
    } else {
      if step.Collect? {
        PushSupplies(s.objects, client.files, step.tip, client.phase.seen, step.todo);
      } else {
        PhaseOkMonotone(s.objects, t.objects, client.phase);
      }
      ClientOkMonotone(s.objects, t.objects, client, t.clients[step.client]);
    }
  }

  lemma StepKeepsInv(s: System, step: Step)
    requires Inv(s) && Enabled(s, step)
    ensures Inv(Apply(s, step))
  {
    var t := Apply(s, step);
    ObjectsOnlyGrow(s, step);
    forall c | c in t.clients ensures ClientOk(t.objects, t.clients[c]) {
      if !step.RotateBatch? && c == step.client {
        ActorOk(s, step);
      } else {
        PhaseOkMonotone(s.objects, t.objects, s.clients[c].phase);
        ClientOkMonotone(s.objects, t.objects, s.clients[c], s.clients[c]);
      }
    }
    RefsStayOk(s, step);
  }

  lemma RefsStayOk(s: System, step: Step)
    requires Inv(s) && Enabled(s, step) && Extends(s.objects, Apply(s, step).objects)
    ensures var t := Apply(s, step); forall b | b in t.refs :: RefOk(t.objects, t.refs[b])
  {
    var t := Apply(s, step);
    forall b | b in t.refs ensures RefOk(t.objects, t.refs[b]) {
      if b in s.refs && t.refs[b] == s.refs[b] {
        assert RefOk(s.objects, s.refs[b]);
      } else {
        assert PhaseOk(s.objects, s.clients[step.client].phase);
      }
    }
  }

  /** A run: system states and the steps between them. */
  ghost predicate Run(states: seq<System>, steps: seq<Step>) {
    && |states| == |steps| + 1
    && forall i | 0 <= i < |steps| :: Enabled(states[i], steps[i]) && states[i + 1] == Apply(states[i], steps[i])
  }

  /** Main result: over every interleaving, from a system in which nothing was pushed, with failed
      fetches and pushes that die midway, every ref of every reached state points at a commit all of
      whose history is completely stored. */
  lemma {:induction false} RefsAlwaysComplete(states: seq<System>, steps: seq<Step>, i: nat)
    requires Run(states, steps) && (Initial(states[0]) || Inv(states[0])) && i < |states|
    ensures Inv(states[i])
    ensures forall b | b in states[i].refs ::
              CommitFromBytes(states[i].refs[b].bytes).Some? && Complete(states[i].objects, states[i].refs[b])
  {
    if i > 0 {
      RefsAlwaysComplete(states, steps, i - 1);
      StepKeepsInv(states[i - 1], steps[i - 1]);
    }
    forall b | b in states[i].refs ensures CommitFromBytes(states[i].refs[b].bytes).Some? {
      RefIsCommit(states[i].objects, states[i].refs[b]);
    }
  }

  lemma RefIsCommit(objects: Files, tip: Hash)
    requires RefOk(objects, tip)
    ensures CommitFromBytes(tip.bytes).Some?
  {
    assert tip in Ancestors(tip);
  }

  // ---- Refs as histories: what compare-and-swap gives when clients only ever move forward ----

  /** The tip a client is pushing descends from the ref value it will pass as the old one. */
  ghost predicate Forward(s: System) {
    forall c | c in s.clients && s.clients[c].phase.Pushing? && s.clients[c].phase.seen.Some? ::
      s.clients[c].phase.seen.value in Ancestors(s.clients[c].phase.tip)
  }

  /** Each client checks descent before it starts pushing; the command itself does not. */
  ghost predicate Disciplined(s: System, step: Step)
    requires Enabled(s, step)
  {
    step.Collect? && s.clients[step.client].phase.seen.Some? ==>
      s.clients[step.client].phase.seen.value in Ancestors(step.tip)
  }

  ghost predicate ForwardRun(states: seq<System>, steps: seq<Step>) {
    && Run(states, steps) && Forward(states[0])
    && forall i | 0 <= i < |steps| :: Disciplined(states[i], steps[i])
  }

  lemma StepMovesForward(s: System, step: Step, b: string)
    requires Enabled(s, step) && Forward(s) && Disciplined(s, step) && b in s.refs
    ensures Forward(Apply(s, step))
    ensures b in Apply(s, step).refs && s.refs[b] in Ancestors(Apply(s, step).refs[b])
  {}

  lemma StepKeepsForward(s: System, step: Step)
    requires Enabled(s, step) && Forward(s) && Disciplined(s, step)
    ensures Forward(Apply(s, step))
  {}

  lemma {:induction false} RunStaysForward(states: seq<System>, steps: seq<Step>, i: nat)
    requires ForwardRun(states, steps) && i < |states|
    ensures Forward(states[i])
  {
    if i > 0 {
      RunStaysForward(states, steps, i - 1);
      StepKeepsForward(states[i - 1], steps[i - 1]);
    }
  }

  /** Whatever a ref ever pointed at stays an ancestor of it. */
  lemma {:induction false} RefsOnlyAdvance(states: seq<System>, steps: seq<Step>, b: string, i: nat, j: nat)
    requires ForwardRun(states, steps) && i <= j < |states| && b in states[i].refs
    ensures b in states[j].refs && states[i].refs[b] in Ancestors(states[j].refs[b])
    decreases j
  {
    if i == j {
      assert states[i].refs[b] in Ancestors(states[i].refs[b]);
    } else {
      RefsOnlyAdvance(states, steps, b, i, j - 1);
      RunStaysForward(states, steps, j - 1);
      StepMovesForward(states[j - 1], steps[j - 1], b);
      AncestorTransitive(states[i].refs[b], states[j - 1].refs[b], states[j].refs[b]);
    }
  }

  /** A ref never comes back to a value it has left. */
  lemma RefsNeverReturn(states: seq<System>, steps: seq<Step>, b: string, i: nat, j: nat, k: nat)
    requires ForwardRun(states, steps) && i <= j <= k < |states|
    requires b in states[i].refs && b in states[k].refs && states[i].refs[b] == states[k].refs[b]
    ensures b in states[j].refs && states[j].refs[b] == states[i].refs[b]
  {
    RefsOnlyAdvance(states, steps, b, i, j);
    RefsOnlyAdvance(states, steps, b, j, k);
    AncestorAntisymmetric(states[i].refs[b], states[j].refs[b]);
  }

  /** Step `i` is a swap that moved branch `b` from `from` to `tip`. */
  ghost predicate MovesRef(states: seq<System>, steps: seq<Step>, i: nat, b: string, from: Option<Hash>, tip: Hash)
    requires Run(states, steps) && i < |steps|
  {
    && steps[i].Swap?
    && Enabled(states[i], steps[i])
    && (var p := states[i].clients[steps[i].client].phase;
        p.branch == b && p.seen == from && p.tip == tip && from != Some(tip))
    && MoveReplyTo(states[i].objects, states[i].refs, b, from, tip) == Moved
  }

  /** At most one move ever succeeds from each old value. */
  lemma OneMoveFromEachValue(
    states: seq<System>, steps: seq<Step>, b: string, i: nat, j: nat, from: Option<Hash>, tip: Hash, tip': Hash)
    requires ForwardRun(states, steps) && i < |steps| && j < |steps|
    requires MovesRef(states, steps, i, b, from, tip) && MovesRef(states, steps, j, b, from, tip')
    ensures i == j
  {
    if i < j {
      NotMovedTwice(states, steps, b, i, j, from, tip);
    } else if j < i {
      NotMovedTwice(states, steps, b, j, i, from, tip');
    }
  }

  lemma NotMovedTwice(states: seq<System>, steps: seq<Step>, b: string, i: nat, j: nat, from: Option<Hash>, tip: Hash)
    requires ForwardRun(states, steps) && i < j < |states|
    requires i < |steps| && MovesRef(states, steps, i, b, from, tip)
    ensures RefOf(states[j].refs, b) != from
  {
    assert states[i + 1] == Apply(states[i], steps[i]);
    assert states[i + 1].refs[b] == tip;
    RefsOnlyAdvance(states, steps, b, i + 1, j);
    if from.Some? && states[j].refs[b] == from.value {
      RefsNeverReturn(states, steps, b, i, i + 1, j);
    }
  }

  /** A commit that was pushed successfully is never lost again. */
  lemma PushedCommitsStay(
    states: seq<System>, steps: seq<Step>, b: string, i: nat, j: nat, from: Option<Hash>, tip: Hash)
    requires ForwardRun(states, steps) && i < j < |states|
    requires i < |steps| && MovesRef(states, steps, i, b, from, tip)
    ensures b in states[j].refs && tip in Ancestors(states[j].refs[b])
  {
    assert states[i + 1] == Apply(states[i], steps[i]);
    RefsOnlyAdvance(states, steps, b, i + 1, j);
  }

  /** The replies to pushes that all started from the same ref value and swap one after another. */
  function RaceReplies(objects: Files, refs: map<string, Hash>, b: string, seen: Option<Hash>, tips: seq<Hash>)
    : (replies: seq<MoveReply>)
    ensures |replies| == |tips|
    decreases |tips|
  {
    if tips == [] then []
    else
      var reply := MoveReplyTo(objects, refs, b, seen, tips[0]);
      var next := if reply == Moved then refs[b := tips[0]] else refs;
      [reply] + RaceReplies(objects, next, b, seen, tips[1..])
  }

  /** Once the ref has moved away, everybody is answered with where it went. */
  lemma {:induction false} LosersSeeTheWinner(
    objects: Files, refs: map<string, Hash>, b: string, seen: Option<Hash>, tips: seq<Hash>, i: nat)
    requires RefOf(refs, b) != seen && i < |tips|
    ensures RaceReplies(objects, refs, b, seen, tips)[i] ==
            if tips[i] in objects then Conflict(RefOf(refs, b)) else UnknownObject
    decreases i
  {
    if i > 0 {
      LosersSeeTheWinner(objects, refs, b, seen, tips[1..], i - 1);
    }
  }

  /** However many pushes race from one ref value, the first whose tip is stored wins, and every later one
      is answered with the value that won. */
  lemma {:induction false} RaceHasOneWinner(
    objects: Files, refs: map<string, Hash>, b: string, seen: Option<Hash>, tips: seq<Hash>, winner: nat, i: nat)
    requires RefOf(refs, b) == seen && forall t | t in tips :: Some(t) != seen
    requires winner < |tips| && tips[winner] in objects && forall j | 0 <= j < winner :: tips[j] !in objects
    requires i < |tips|
    ensures RaceReplies(objects, refs, b, seen, tips)[i] ==
            if tips[i] !in objects then UnknownObject
            else if i == winner then Moved
            else Conflict(Some(tips[winner]))
    decreases |tips|
  {
    assert tips[0] in tips && forall t | t in tips[1..] :: t in tips;
    if winner == 0 {
      if i > 0 {
        LosersSeeTheWinner(objects, refs[b := tips[0]], b, seen, tips[1..], i - 1);
      }
    } else if i > 0 {
      RaceHasOneWinner(objects, refs, b, seen, tips[1..], winner - 1, i - 1);
    }
  }

  // ---- Without the discipline: a push from an unrelated history discards a pushed commit ----

  function RootFields(tree: Hash, timestamp: int): CommitFields {
    CommitFields(tree, [], 0, timestamp, "")
  }

  function RootCommit(tree: Hash, timestamp: int): Hash {
    var fields := RootFields(tree, timestamp);
    HashOf(CommitObject(Commit(fields, Signed(0, fields))))
  }

  ghost predicate IsRootOf(h: Hash, tree: Hash, timestamp: int) {
    && CommitFromBytes(h.bytes).Some?
    && CommitFromBytes(h.bytes).value.fields == RootFields(tree, timestamp)
  }

  /** A root commit over an empty tree reaches itself and the tree. */
  lemma RootReaches(h: Hash, tree: Hash, timestamp: int)
    requires IsRootOf(h, tree, timestamp) && TreeFromBytes(tree.bytes) == Some(Tree(map[]))
    ensures Parents(h) == [] && WellTyped(h) && h != tree && Own(h) == {h, tree} && Reach(h) == {h, tree}
  {}

  lemma RootHasNoAncestors(h: Hash, x: Hash)
    requires Parents(h) == [] && x != h
    ensures x !in Ancestors(h)
  {}

  /** A swap keeps what was pushed before reachable exactly when the new tip descends from the value
      swapped out: the check the push command leaves to its user. */
  lemma SwapKeepsHistoryIff(s: System, c: nat, from: Hash)
    requires Enabled(s, Swap(c)) && s.clients[c].phase.seen == Some(from)
    requires var p := s.clients[c].phase; MoveReplyTo(s.objects, s.refs, p.branch, p.seen, p.tip) == Moved
    ensures var p := s.clients[c].phase;
            (forall x | x in Ancestors(from) :: x in Ancestors(Apply(s, Swap(c)).refs[p.branch])) <==>
            from in Ancestors(p.tip)
  {
    var p := s.clients[c].phase;
    assert from in Ancestors(from);
    if from in Ancestors(p.tip) {
      forall x | x in Ancestors(from) ensures x in Ancestors(p.tip) { AncestorTransitive(x, from, p.tip); }
    }
  }

  /** The command reads the remote ref and swaps from it without asking whether its own tip descends
      from it. A run in which the commit the branch pointed at is no longer reachable afterwards. */
  lemma UndisciplinedPushLosesACommit()
    returns (states: seq<System>, steps: seq<Step>, b: string, mine: Hash)
    ensures |steps| == 5 && Run(states, steps) && Inv(states[0]) && RefOf(states[0].refs, b) == Some(mine)
    ensures RefOf(states[5].refs, b).Some? && mine !in Ancestors(RefOf(states[5].refs, b).value)
  {
    b := "main";
    var theirs, tree;
    mine, theirs, tree := TwoRoots();
    RootReaches(mine, tree, 0);
    RootReaches(theirs, tree, 1);
    RootHasNoAncestors(theirs, mine);
    states, steps := OverwriteRef(b, mine, theirs, tree);
  }

  /** Two unrelated root commits of the same tree. */
  lemma TwoRoots() returns (mine: Hash, theirs: Hash, tree: Hash)
    ensures IsRootOf(mine, tree, 0) && IsRootOf(theirs, tree, 1) && TreeFromBytes(tree.bytes) == Some(Tree(map[]))
  {
    tree := HashOf(TreeObject(Tree(map[])));
    mine, theirs := RootCommit(tree, 0), RootCommit(tree, 1);
  }

  lemma PairComplete(files: Files, tip: Hash, tree: Hash)
    requires Reach(tip) == {tip, tree} && Holds(files, tip) && Holds(files, tree)
    ensures Complete(files, tip)
  {}

  lemma OneClientOk(s: System, server: Files, local: Files, b: string, mine: Hash, theirs: Hash)
    requires s == System(server, map[b := mine], map[1 := Client(local, {theirs}, Idle)])
    requires Intact(server) && Complete(server, mine) && Complete(local, theirs) && WellTyped(mine) && WellTyped(theirs)
    ensures Inv(s)
  {
    SoundIsBacked(server, local, theirs);
  }

  lemma OverwriteRef(b: string, mine: Hash, theirs: Hash, t: Hash) returns (states: seq<System>, steps: seq<Step>)
    requires mine != theirs && mine != t && theirs != t
    requires Reach(mine) == {mine, t} && Reach(theirs) == {theirs, t} && WellTyped(mine) && WellTyped(theirs)
    requires Parents(theirs) == [] && Own(theirs) == {theirs, t}
    ensures |steps| == 5 && Run(states, steps) && Inv(states[0]) && RefOf(states[0].refs, b) == Some(mine)
    ensures RefOf(states[5].refs, b) == Some(theirs)
  {
    var server: Files := map[mine := mine.bytes, t := t.bytes];
    var local: Files := map[theirs := theirs.bytes, t := t.bytes];
    var s0 := System(server, map[b := mine], map[1 := Client(local, {theirs}, Idle)]);
    PairComplete(server, mine, t);
    PairComplete(local, theirs, t);
    OneClientOk(s0, server, local, b, mine, theirs);
    states, steps := FullPush(s0, 1, b, theirs, t);
  }

  /** One uninterrupted push of a root commit and its tree. */
  lemma FullPush(s0: System, c: nat, b: string, tip: Hash, tree: Hash) returns (states: seq<System>, steps: seq<Step>)
    requires c in s0.clients && s0.clients[c].phase == Idle && tip in s0.clients[c].tips && tip != tree
    requires Parents(tip) == [] && Own(tip) == {tip, tree} && Complete(s0.clients[c].files, tip)
    requires RefOf(s0.refs, b) != Some(tip)
    ensures |steps| == 5 && Run(states, steps) && states[0] == s0
    ensures states[5].refs == s0.refs[b := tip]
  {
    var s1, s2 := LookAndCollect(s0, c, b, tip, tree);
    states, steps := RunGrows([s0], [], LookRef(c, b), s1);
    states, steps := RunGrows(states, steps, Collect(c, tip, [tip, tree]), s2);
    var s3, s4, s5 := UploadBothAndSwap(s2, c, b, RefOf(s0.refs, b), tip, tree);
    states, steps := RunGrows(states, steps, UploadNext(c), s3);
    states, steps := RunGrows(states, steps, UploadNext(c), s4);
    states, steps := RunGrows(states, steps, Swap(c), s5);
  }

  lemma PairCovers(files: Files, seen: Option<Hash>, tip: Hash, tree: Hash)
    requires Parents(tip) == [] && Own(tip) == {tip, tree} && Complete(files, tip) && tip != tree && seen != Some(tip)
    ensures CoversPush(files, tip, seen, [tip, tree]) && Holds(files, tip) && Holds(files, tree)
  {
    assert tip in Ancestors(tip) && tip in Reach(tip) && tree in Reach(tip);
    assert Ahead(files, tip, seen) == {tip};
    OwnIsStored(files, tip);
  }

  lemma LookAndCollect(s0: System, c: nat, b: string, tip: Hash, tree: Hash) returns (s1: System, s2: System)
    requires c in s0.clients && s0.clients[c].phase == Idle && tip in s0.clients[c].tips && tip != tree
    requires Parents(tip) == [] && Own(tip) == {tip, tree} && Complete(s0.clients[c].files, tip)
    requires RefOf(s0.refs, b) != Some(tip)
    ensures Enabled(s0, LookRef(c, b)) && s1 == Apply(s0, LookRef(c, b))
    ensures Enabled(s1, Collect(c, tip, [tip, tree])) && s2 == Apply(s1, Collect(c, tip, [tip, tree]))
    ensures c in s2.clients && s2.clients[c].phase == Pushing(b, RefOf(s0.refs, b), tip, [tip, tree])
    ensures s2.refs == s0.refs && Holds(s2.clients[c].files, tip) && Holds(s2.clients[c].files, tree)
  {
    s1 := Apply(s0, LookRef(c, b));
    PairCovers(s0.clients[c].files, RefOf(s0.refs, b), tip, tree);
    s2 := Apply(s1, Collect(c, tip, [tip, tree]));
  }

  lemma UploadBothAndSwap(s2: System, c: nat, b: string, seen: Option<Hash>, tip: Hash, tree: Hash)
    returns (s3: System, s4: System, s5: System)
    requires c in s2.clients && s2.clients[c].phase == Pushing(b, seen, tip, [tip, tree])
    requires RefOf(s2.refs, b) == seen && Holds(s2.clients[c].files, tip) && Holds(s2.clients[c].files, tree)
    ensures Enabled(s2, UploadNext(c)) && s3 == Apply(s2, UploadNext(c))
    ensures Enabled(s3, UploadNext(c)) && s4 == Apply(s3, UploadNext(c))
    ensures Enabled(s4, Swap(c)) && s5 == Apply(s4, Swap(c))
    ensures s4.clients[c].phase == Pushing(b, seen, tip, []) && s4.refs == s2.refs && tip in s4.objects
    ensures s5.refs == s2.refs[b := tip]
    ensures s5.clients == s2.clients[c := s2.clients[c].(phase := Idle)]
  {
    s3 := Apply(s2, UploadNext(c));
    s4 := Apply(s3, UploadNext(c));
    s5 := Apply(s4, Swap(c));
    assert [tip, tree][1..] == [tree] && [tree][1..] == [];
  }

  lemma RunGrows(states: seq<System>, steps: seq<Step>, step: Step, next: System)
    returns (states': seq<System>, steps': seq<Step>)
    requires Run(states, steps) && Enabled(states[|steps|], step) && next == Apply(states[|steps|], step)
    ensures Run(states', steps') && |steps'| == |steps| + 1
    ensures states'[0] == states[0] && states'[|steps'|] == next
  {
    states', steps' := states + [next], steps + [step];
  }
}
