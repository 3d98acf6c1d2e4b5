# Wonton's history engine in Dafny

Wonton is a secrets manager with Git-like history: values are encrypted blobs, a tree maps key
names to blobs, a signed commit names a tree and its parents, and a branch is a ref to a commit
under its own data key. This project models that engine and proves what it is for:

- **Object graph** (`Objects`, `History`, `Vcs`, `Log`, `MergeBase`, `Diff`, `ThreeWay`): verified
  reads, the first-parent walk, the ancestor search, the key-level diff and the three-way rule.
- **Replication** (`Pull`, `PullGuarantees`, `Server`, `Push`, `Replication`, `RoundTrip`): what a
  pull leaves behind against any server, what a push collects, and many clients interleaving over
  one server.
- **Local branches** (`Agent`, `CommitBuilder`, `LocalState`, `MergeSession`, `MergeSummary`,
  `Workspace`, `Merging`, `BranchMachine`, `ForkMerge`, `LostWork`, `Rotation`, `Adoption`): staging, committing, forking,
  merging across two keys with pauses, key rotation, and moving to a pulled tip, with the agent locked, logged
  in to and its keys unwrapped at any time. They are shown to refine one plain key/value map per branch.
- **Text** (`Render`, `PrefixLookup`): exported shell and dotenv text, abbreviated hashes.

`KeyOrder` is the iteration order of a sorted map, `Crypto` the symbolic cryptography, `Wrappers`
the result types.

## How the system is represented

- **Hashes.** Hashing is perfect: `Hash` is an injective wrapper of the hashed bytes. Bytes are the
  encoding of one object, in canonical form (0) or in another form the parser also accepts, or junk.
  Code learns what a hash stands for only by reading a store, so a tampered disk or a lying server is
  an arbitrary map from hashes to bytes. A hash contains the hashes its object names, so acyclic
  history and the termination of every walk are theorems, not assumptions.
- **Cryptography.** A ciphertext records key, nonce and plaintext and opens only under that key and
  nonce; sealed boxes and signatures are symbolic in the same way. Randomness is a parameter.
- **Mutable parts** are classes: the object store, the server's tables, the agent, the saved local
  state. Loops of the source are loops here, with invariants, and each method is tied to a
  specification function or states its result outright.
- **Many clients.** `Replication` is a step relation: committing, fetching (a failed pull included),
  adopting a ref, reading a ref, collecting, uploading one object, swapping, dying at any point, and a
  rotation batch interleave freely.
- **Plaintext meaning.** `LocalState.Meaning` maps saved state, store and the branches' keys to one plain
  record per branch (committed map, pending edits, fork values, paused merge). Every branch command
  is proved to do to that record exactly what its user expects, and nothing to any other branch.
- **Known and cached keys.** `Workspace.known` is a ghost map of every context's key; the agent's cache is
  any part of it. So the invariant and the meaning survive a lock, and a command is refused exactly when a
  key it needs is not cached or somebody else is logged in. A rotation and a pulled tip may break the
  invariant; each says exactly when, so runs can be continued after either.

## What the code does that one might not expect

- A pull that failed leaves an open store behind, because a commit is stored before its tree is
  fetched, and a retry then reports success (`PullGuarantees.RetryAfterFailureTrustsAnOpenStore`).
  `PullGuarantees.PullsCompleteIff` is the exact condition on the store before a pull: every pull of a mainline
  that no tree of it names ends with that mainline complete iff the mainlines already stored are. What the
  failed pull left is not such a store (`PullGuarantees.FailedPullLeavesMainlineOpen`).
- A tree may name a commit as the value of a key. Such a "blob" stops a later pull early
  (`PullGuarantees.CommitNamedAsBlobStopsTheWalk`) and can make it answer "diverged" although the local
  tip is on the remote mainline (`PullGuarantees.CommitNamedAsBlobMisjudges`), so the completeness result
  assumes that no tree of the mainline names a commit of that mainline. Without any assumption a
  fast-forward answer is safe (`Pull.FastForwardIsSafe`), and the answer is right iff the local tip is off
  the remote mainline or the commits between it and the stop are stored
  (`PullGuarantees.AnswerIsRightIff`).
- The comment on the local first-parent walk says it fails on a missing object; the code answers "not
  reached" (crates/sync/src/pull.rs:178-192). The model follows the code.
- `push` reads the remote ref and swaps from it without asking whether its own tip descends from it. A
  swap keeps what was pushed before reachable iff the new tip descends from the value swapped out
  (`Replication.SwapKeepsHistoryIff`); `UndisciplinedPushLosesACommit` is a run that loses a commit.
- The merge base is nearest by hops from the second argument; with merge commits it need not be a
  lowest common ancestor (`MergeBase.NearestNeedNotBeLowest`). It is one, whatever the second commit is
  compared with, iff hop distance from that commit strictly grows along ancestry
  (`MergeBase.LowestIffHopsGrow`). On histories with at most one parent per commit it is, and the search
  is symmetric.
- Forking is described as copying the source's effective values; the code copies its committed ones,
  without pending edits (crates/cli/src/commands.rs:805-807 against 844). The two agree iff no pending
  edit changes anything (`BranchMachine.ForkShowsSourceIff`); one staged value is a counterexample
  (`BranchMachine.ForkMissesPendingEdit`).
- `commit` does not look at a paused merge, and continuing the merge commits the tips saved when it
  began: the result is the same whatever was committed in between
  (`BranchMachine.ContinueIgnoresCommits`), so a key committed only then is dropped
  (`LostWork.NewKeyIsDropped`). Such work stays in the branch's history iff it is an ancestor of the other
  side's saved tip (`Merging.FinishedMergeKeepsWorkIff`). `LostWork.PausedMergeLosesWork` is a run of the
  modelled commands that loses a committed key and its commit.
- The agent's cached keys need not belong to the resident identity. They do at every moment of a run iff
  no login succeeds for somebody else while keys are cached (`Agent.KeysBelongIff`); at the end of a run
  a cached key belongs to who is resident iff nobody has logged in since it was bound, or its owner was
  the last to do so (`Agent.KeyBelongsAtEndIff`). `Agent.KeysOutliveTheirOwner` is a run in which one
  person's value is decrypted for another.
- Rotation re-encrypts the committed tip only. Everything stays readable with its meaning iff only deletions
  were staged, the fork record is empty, and no paused merge of the branch, or with it as the other side,
  still needs a value under the old key (`Rotation.RotationIsInvisible`, `Rotation.Quiet`). The server's ref is
  not moved by a rotation, and a rotator who is not a listed member keeps the old key cached.
- A new branch's key is only in the agent until it is pushed: a branch that the server keeps no key of is
  never ready again after a lock (`BranchMachine.LostKeyStaysLost`). A branch may be created under a name
  the server already has keys for; the sealed copies then no longer hold the branch's key, and in no other
  case (`BranchMachine.FreshKeyIsHonestIff`).
- Keys are exported as they are, and staging accepts any non-empty key without `=`. Exported shell text
  reads back as the exported pairs iff no key has a blank, a quote, a backslash, `=` or another character
  special to the shell (`Render.ShellRoundTrip`, `Render.KeyMayNeedQuoting`).
- Exported dotenv text decodes to the exported pairs iff no key contains `=`
  (`Render.DotenvRoundTrip`). Such a key arrives only in a tree made elsewhere.

## Model

| member | source | states |
|---|---|---|
| Objects.Lookup | crates/objects/src/store.rs:49-64 | A read is absent, a reported mismatch, or the very bytes the hash was computed from. |
| Objects.LocalObjectStore.Put | crates/objects/src/store.rs:32-45 | Bytes are stored exactly when they hash to their name; a refused put changes nothing. |
| KeyOrder.SortedKeys | crates/vcs/src/working_set.rs:48-51 | Iteration of a sorted map: strictly increasing, each key exactly once. |
| KeyOrder.SortedUnique | crates/objects/src/tree.rs:11-12 | There is only one increasing sequence of a set of keys, whatever order they were inserted in. |
| KeyOrder.LessIsLexicographic | crates/objects/src/tree.rs:11-12 | The order of keys: a proper prefix first, else the smaller character where they first differ. |
| History.AncestorAntisymmetric | crates/objects/src/commit.rs:10-19 | Commit history has no cycles. |
| History.AncestorTransitive | crates/vcs/src/merge.rs:21-38 | Being reachable over parents is transitive. |
| History.ClosedSetCoversAncestors | crates/vcs/src/merge.rs:25-38 | A set closed under parents, up to a stop, holds every ancestor but those of the stop. |
| History.LinearMainline | crates/vcs/src/log.rs:57-63 | Without merge commits the ancestors of a tip are exactly its first-parent chain. |
| History.LinearReach | crates/sync/src/pull.rs:88-98 | Without merge commits the first-parent chain commits to everything the tip reaches. |
| History.ReachMonotone | crates/cli/src/commands.rs:2234-2240 | What an ancestor reaches, the tip reaches. |
| Vcs.LoadCommit | crates/vcs/src/lib.rs:218-231 | A commit loads exactly when stored uncorrupted and its canonical encoding has the requested hash. |
| Vcs.LoadTreeOfCommit | crates/vcs/src/lib.rs:259-269 | Loads exactly when a canonical commit and a parsable tree are stored uncorrupted, and returns the tree the hash commits to. |
| Vcs.DecryptBlob | crates/vcs/src/lib.rs:275-289 | A blob decrypts exactly when stored, well formed and sealed under the given key. |
| Log.CheckIsAuthentic | crates/vcs/src/lib.rs:239-256 | A commit passes exactly when it is canonical and signed, over its own fields, by the key its author resolves to. |
| Log.RefusalSaysWhy | crates/vcs/src/log.rs:64-86 | A refusal names its cause: the load error, an unknown author, or a signature that is not the author's over these fields. |
| Log.LogFrom | crates/vcs/src/log.rs:64-86 | Over any tampered store the walk ends; Ok gives the whole first-parent chain, all authentic; an error is that of the first commit that is not. |
| Log.VerifiedMainlineUnique | crates/vcs/src/log.rs:64-86 | Two walks that succeed return the same list, whatever was done to either store. |
| Log.VerifiedOrRefused | crates/vcs/src/log.rs:52-56 | No store both verifies a history and gives a reason to refuse it. |
| Log.MainlineAuthorIds | crates/vcs/src/log.rs:94-105 | Exactly the authors of the first-parent chain, whenever every commit of it loads. |
| Log.CoveringResolverKnowsSigners | crates/vcs/src/log.rs:88-94 | A resolver covering those authors never meets an unknown signer. |
| MergeBase.AllAncestors | crates/vcs/src/merge.rs:25-38 | The worklist returns exactly the ancestor set, and succeeds exactly when every ancestor loads. |
| MergeBase.MergeBaseOf | crates/vcs/src/merge.rs:50-68 | None exactly for disjoint histories, else a common ancestor that no other beats in hops from the second commit. Fails only at a commit that does not load and is an ancestor of the first, or met from the second no further than the nearest common ancestor; and always if there is one met strictly before. |
| MergeBase.NextLevel | crates/vcs/src/merge.rs:53-67 | When the queue holds nothing of the current hop level, all of that level was seen and all of the next is seen or queued. |
| MergeBase.Expanded | crates/vcs/src/merge.rs:55-66 | Visiting one commit keeps the breadth-first invariants and shrinks what is unseen. |
| MergeBase.LinearNearestIsLowest | crates/vcs/src/merge.rs:40-49 | With at most one parent per commit every common ancestor lies below the one found. |
| MergeBase.LinearSymmetric | crates/vcs/src/merge.rs:50-68 | ... and the answer does not depend on which side is walked. |
| MergeBase.LowestIffHopsGrow | crates/vcs/src/merge.rs:40-68 | Every answer of the search from one commit is a lowest common ancestor iff hop distance from that commit strictly grows along ancestry. |
| MergeBase.NearestExists | crates/vcs/src/merge.rs:53-67 | Below any common ancestor, in hops, there is one that no other beats. |
| MergeBase.NearerButLower | crates/vcs/src/merge.rs:53-67 | A history in which the nearest common ancestor is an ancestor of another common ancestor. |
| MergeBase.NearestNeedNotBeLowest | crates/vcs/src/merge.rs:40-49 | So the answer is not always a lowest common ancestor. |
| Diff.DiffCommits | crates/vcs/src/diff.rs:42-85 | Succeeds exactly when both trees load and every pair with unequal hashes decrypts; emits one right entry per differing key, in increasing key order. |
| Diff.DiffKey | crates/vcs/src/diff.rs:63-81 | One key: added, removed, changed in plaintext, or unchanged, without looking inside equal hashes. |
| Diff.DiffTrees | crates/vcs/src/diff.rs:61-84 | The loop over the sorted key union. |
| Diff.FastPathIsPlainDiff | crates/vcs/src/diff.rs:33-41 | When all blobs open, the entries are exactly the plaintext difference; a value only encrypted again is not reported. |
| Diff.PlainDiffUnique | crates/vcs/src/diff.rs:54-61 | That difference is one list: no duplicates, no other order. |
| ThreeWay.ThreeWayMerge | crates/vcs/src/merge.rs:100-126 | The per-key rule over the union of the three key sets. |
| ThreeWay.ConflictsExactly | crates/vcs/src/merge.rs:105-124 | A key conflicts exactly when both sides changed it, differently, and the conflict carries both values. |
| ThreeWay.NoConflictAppliesBoth | crates/vcs/src/merge.rs:105-124 | Without conflicts the result is both sides' changes applied to the base, in either order. |
| ThreeWay.SidesAreSymmetric | crates/vcs/src/merge.rs:105-124 | Swapping the sides swaps the two sides of each conflict and nothing else. |
| ThreeWay.MergingAgainIsIdle | crates/vcs/src/merge.rs:105-124 | Merging the same side again onto a conflict-free result changes nothing. |
| Pull.FetchObject | crates/sync/src/client.rs:225-245 | Fetched bytes are handed on exactly when they hash to what was asked for. |
| Pull.FetchAndStoreTree | crates/sync/src/pull.rs:163-174 | Adds at most the tree, verified, and fetches it only when it is missing; succeeds exactly when the tree parses and the stored copy, or else the served one, is uncorrupted. |
| Pull.FetchAndStoreCommit | crates/sync/src/pull.rs:143-160 | Ok adds exactly the commit, its tree and its blobs; on any outcome a served commit is stored before its tree. Succeeds exactly when commit and tree parse, a stored tree is uncorrupted and what is missing is served. |
| Pull.FetchMissingBlobs | crates/sync/src/pull.rs:153-158 | Exactly if every missing blob is served, every blob of the tree is stored; only missing ones are fetched. |
| Pull.LocalFirstParentReaches | crates/sync/src/pull.rs:179-202 | Ok exactly when each commit read before the target or the first missing one is uncorrupted with at most one parent; a missing object is answered "not reached". |
| Pull.LocalWalkableIff | crates/sync/src/pull.rs:179-202 | What that walk needs: each commit it reads, down to the target or the first missing one, is uncorrupted with at most one parent. |
| Pull.WalkToKnown | crates/sync/src/pull.rs:78-99 | The fetching loop stops at the first commit that is the local tip, already held or a root, having added exactly what lies on the way; it succeeds exactly when each commit above the stop can be fetched and has at most one parent, whatever the stop is. |
| Pull.WalkFetches | crates/sync/src/pull.rs:90-97 | One turn of that loop leaves the rest of the walk as it was. |
| Pull.StopIsFirstMet | crates/sync/src/pull.rs:78-99 | The stop is the first mainline commit that is the local tip, held, or named by a commit fetched above it. |
| Pull.GatheredIs | crates/sync/src/pull.rs:88-90 | What a walk fetches is the commits above the stop with their trees and blobs. |
| Pull.OnTopOfLocalTip | crates/sync/src/pull.rs:78-94 | A remote commit directly on top of the local tip is fetched and fast-forwards, also when the local tip is a merge commit. |
| Pull.FastForwardIsSafe | crates/sync/src/pull.rs:1-10 | For every store and server: fast-forward is answered only when the local tip is absent or on the remote mainline, so a divergence is never overwritten. |
| Pull.PullBranch | crates/sync/src/pull.rs:47-138 | Against any server: only verified objects of the remote mainline are added, the answer follows from where the walk stopped, fast-forward is answered only for a local tip that is absent or on the remote mainline. Succeeds exactly when there is nothing to do, or every commit above the stop can be fetched and what the local walk below it reads is readable. |
| PullGuarantees.HeldIffStopHeld | crates/sync/src/pull.rs:83-87 | Where a finished walk stops decides: the tip is complete after it iff it reached the root or what it stopped at is complete then. |
| PullGuarantees.StopSplitsMainline | crates/sync/src/pull.rs:116-123 | The local tip is on the remote mainline iff it is at or below the stop. |
| PullGuarantees.LocalWalkIsExact | crates/sync/src/pull.rs:179-202 | On held history the local walk decides mainline membership. |
| PullGuarantees.StopWasHeld | crates/sync/src/pull.rs:83-87 | If no tree names a mainline commit, a commit met as already held was held before the pull. |
| PullGuarantees.AddedStaysHeld | crates/sync/src/pull.rs:83-84 | What a complete pull adds keeps the stored mainlines, and a closed store, complete. |
| PullGuarantees.PullIsComplete | crates/sync/src/pull.rs:101-137 | From a store whose mainlines are held, every Ok pull that walks leaves the remote mainline complete and answers fast-forward iff the local tip is absent or on it; if no tree names a commit, the next pull may rely on the store again. |
| PullGuarantees.PullsCompleteIff | crates/sync/src/pull.rs:83-87 | The exact condition on the store before: all such pulls leave their mainline complete iff every stored commit whose mainline no tree of it names has that mainline stored. |
| PullGuarantees.FailedPullLeavesMainlineOpen | crates/sync/src/pull.rs:143-152 | A stored commit without its tree, as a failed pull leaves it, breaks that condition. |
| PullGuarantees.AnswerIsRightIff | crates/sync/src/pull.rs:116-137 | For every store and server: the answer is right iff the local tip is off the remote mainline or every commit between it and the stop is stored. |
| PullGuarantees.RetryAfterFailureTrustsAnOpenStore | crates/sync/src/pull.rs:148-152 | A failed pull followed by a retry that succeeds although the tree was never fetched. |
| PullGuarantees.CommitNamedAsBlobStopsTheWalk | crates/sync/src/pull.rs:153-158 | A commit stored as some key's blob stops the walk before its own tree is fetched. |
| PullGuarantees.CommitNamedAsBlobMisjudges | crates/sync/src/pull.rs:116-137 | A closed store, an honest server and a tip naming its parent as a value: a fast-forward is called diverged. |
| Server.Server.UploadObject | crates/server/src/handlers.rs:625-665 | Accepts exactly a legal kind with matching hash; storing is idempotent and never overwrites. |
| Server.Server.MoveRef | crates/server/src/handlers.rs:688-733 | Compare-and-swap: creates only an absent ref, moves only from the given value, only to a stored object; a conflict names the current value. |
| Server.Server.GrantKey | crates/server/src/handlers.rs:839-860 | Inserts or replaces one user's sealed key at one version. |
| Server.Server.ListMembers | crates/server/src/handlers.rs:777-804 | Exactly the users with a membership row of the branch, each once, in increasing id. |
| Server.Server.AddMember | crates/server/src/handlers.rs:933-963 | Adds one row, of a known user. |
| Server.Server.RemoveMember | crates/server/src/handlers.rs:983-997 | Removes one row and nothing else. |
| Server.OthersKeepTheirs | crates/server/src/handlers.rs:902-914 | Granting changes no entry but those named. |
| Server.Server.Rotate | crates/server/src/handlers.rs:866-922 | Objects, sealed keys and version all at once, or nothing. |
| Server.InsertAllGrows | crates/server/src/handlers.rs:890-901 | A batch of verified uploads adds exactly what it names and changes nothing stored. |
| Push.CollectObjectsToPush | crates/cli/src/commands.rs:2241-2275 | Each collected object once, stored, and reached over stored commits without passing the stop; where hashes are used for what they are, all of these, and the walk fails exactly when one of those commits or trees is corrupted. |
| Push.CollectCommit | crates/cli/src/commands.rs:2250-2272 | One commit of the walk: itself, its tree and blobs, then its parents. |
| Push.CollectTree | crates/cli/src/commands.rs:2258-2270 | A commit's tree and blobs, as far as stored and new. |
| Push.CollectBlobs | crates/cli/src/commands.rs:2264-2268 | The stored, new blobs of one tree. |
| Push.PushCovers | crates/cli/src/commands.rs:2234-2240 | From a sound local history, what is collected and what the stop reaches together are everything the tip reaches. |
| Push.PushSupplies | crates/cli/src/commands.rs:2250-2254 | If each commit is fully held locally or complete on the server, then after uploading the list everything the tip reaches is on the server. |
| Push.CollectingMisses | crates/cli/src/commands.rs:2250-2254 | A commit the local store lacks is passed over and ends that path only. |
| Push.CoversMore | crates/cli/src/commands.rs:2246-2272 | Visiting one stored commit forgets nothing of what was awaited. |
| Push.PushObjects | crates/sync/src/push.rs:26-46 | Uploads only what is listed, moves the ref only after all of it is up; succeeds exactly when all listed is stored, the target is supplied and the ref is the expected value, and loses a race exactly when it is not. |
| Replication.RefsAlwaysComplete | crates/server/src/handlers.rs:695-704 | From a system in which nothing was pushed, over every interleaving of clients that commit, fetch, adopt and push, dying midway included, each ref points at a commit whose whole history, trees and blobs are on the server. |
| Replication.StepKeepsInv | crates/sync/src/push.rs:36-45 | Every single step keeps that, and keeps each client's tips well-typed and backed: each commit fully held by the client or complete on the server. |
| Replication.CommitIsBacked | crates/vcs/src/commit.rs:75-98 | A commit over backed tips is backed, also in a store that a failed pull left with holes. |
| Replication.RefIsBacked | crates/sync/src/pull.rs:101-109 | A ref value that was looked at can be built upon, whatever was fetched of it. |
| Replication.ObjectsOnlyGrow | crates/server/src/handlers.rs:631-640 | No step removes or alters a stored object. |
| Replication.RefsOnlyAdvance | crates/server/src/handlers.rs:704-733 | If clients swap only to descendants, every value a ref ever had stays its ancestor. |
| Replication.RefsNeverReturn | crates/server/src/handlers.rs:704-733 | ... so a ref never comes back to a value it has left. |
| Replication.OneMoveFromEachValue | crates/server/src/handlers.rs:683-687 | ... and at most one move ever succeeds from each old value. |
| Replication.PushedCommitsStay | crates/sync/src/push.rs:43-45 | ... and a pushed commit is an ancestor of the ref ever after. |
| Replication.RaceHasOneWinner | crates/server/src/handlers.rs:683-687 | Of any number of swaps from one value, the first whose tip is stored wins and every later one is answered with the value that won. |
| Replication.SwapKeepsHistoryIff | crates/cli/src/commands.rs:1253-1264 | A successful swap keeps the old history reachable iff the new tip descends from the old value. |
| Replication.UndisciplinedPushLosesACommit | crates/cli/src/commands.rs:1253-1264 | A run of the command as written after which a pushed commit is unreachable. |
| RoundTrip.PushedTipIsComplete | crates/cli/src/commands.rs:1263-1264 | A finished push leaves the whole tip on the server, also from a store that lacks objects the server has. |
| RoundTrip.CloneLinear | crates/sync/src/pull.rs:101-109 | Pulling a linear history into an empty store copies exactly what the tip commits to. |
| RoundTrip.PushThenPull | crates/cli/src/commands.rs:1263-1264 | Push then clone: the same bytes for every reachable object, and no other object. |
| RoundTrip.FreshPullIsExact | crates/sync/src/pull.rs:101-109 | What an Ok pull into an empty store leaves is exactly the reachable set. |
| RoundTrip.CopyHasSameLog | crates/vcs/src/log.rs:64-86 | Such a copy verifies exactly the same histories, for every resolver. |
| RoundTrip.CopyHasSameView | crates/cli/src/commands.rs:2209-2232 | ... and its tip is readable under exactly the same keys; what it reads is fixed by the hash. |
| RoundTrip.CommittedHistoryVerifies | crates/vcs/src/commit.rs:83-98 | What committing builds, the verified walk accepts, one entry longer, for any resolver that knows the author. |
| Agent.Agent.HandleRequest | crates/cli/src/agent/daemon.rs:155-360 | Each request changes the resident identity and cached keys, and answers, exactly as the state function says. |
| Agent.KeysOnlyWithIdentity | crates/cli/src/agent/daemon.rs:342-349 | After any requests, keys are cached only while an identity is resident. |
| Agent.DecryptsIffSameKey | crates/cli/src/agent/daemon.rs:239-296 | A value encrypted under a context decrypts later iff the context is still bound to that key. |
| Agent.EncryptThenDecrypt | crates/cli/src/agent/daemon.rs:239-296 | ... which holds across any requests that neither rebind the context nor lock. |
| Agent.LockedUntilLogin | crates/cli/src/agent/daemon.rs:342-349 | From a lock to the next login nothing secret is answered. |
| Agent.AnswersAreTrue | crates/cli/src/agent/daemon.rs:183-360 | The agent says who is resident and exactly which contexts are cached, in order. |
| Agent.KeysBelongIff | crates/cli/src/agent/daemon.rs:159-182 | Over every run: at every moment all cached keys were bound by the resident identity iff no login succeeds for somebody else while keys are cached. |
| Agent.KeyBelongsAtEndIff | crates/cli/src/agent/daemon.rs:159-182 | After every run: a cached key was bound by the resident identity iff nobody logged in since it was bound, or its owner did so last. |
| Agent.KeysOutliveTheirOwner | crates/cli/src/agent/daemon.rs:159-182 | A run in which one person binds a key, another logs in, and the first one's value is decrypted for the second. |
| CommitBuilder.EncryptWith | crates/cli/src/agent/cipher.rs:53-75 | Encryption under the context's cached key, or a refusal. |
| CommitBuilder.DecryptWith | crates/cli/src/agent/cipher.rs:79-92 | Decryption succeeds exactly under the key that sealed the value. |
| CommitBuilder.SignWith | crates/cli/src/agent/cipher.rs:96-110 | A signature of the resident identity, or a refusal. |
| CommitBuilder.EncryptAndStore | crates/cli/src/commands.rs:1359-1366 | The stored blob opens under the context's key to the value given. |
| CommitBuilder.DecryptStored | crates/cli/src/commands.rs:2194-2204 | Succeeds exactly when stored, well formed and sealed under the context's key. |
| CommitBuilder.StoreBlobs | crates/vcs/src/commit.rs:63-73 | One stored blob per key, each opening to its value; fails exactly when a value needs a key that is not cached. |
| CommitBuilder.BuildAndSign | crates/vcs/src/commit.rs:54-99 | The new commit is canonical, signed, has the given parents, author, message and time, and its tree decrypts to exactly the given map. |
| CommitBuilder.NewCommitIsSound | crates/vcs/src/commit.rs:75-98 | A commit over sound parents has a complete, well-typed history that a push may rely on. |
| LocalState.BaseIsForkBase | crates/cli/src/commands.rs:1538-1557 | The chosen base commit under the chosen key means the values the forked side started from. |
| LocalState.MessagesAre | crates/cli/src/commands.rs:855-862 | Fork and merge messages name a branch by what follows the last slash. |
| LocalState.PausedMergeUntouched | crates/cli/src/state.rs:108-130 | A paused merge keeps its meaning while the store grows and other branches change. |
| LocalState.BranchUntouched | crates/cli/src/state.rs:216-224 | A branch whose record did not change keeps invariant and meaning. |
| LocalState.OneBranchChanged | crates/cli/src/state.rs:216-224 | Changing one record changes the meaning of that branch only. |
| Workspace.Workspace.TreeToPlaintext | crates/cli/src/commands.rs:1345-1354 | Succeeds exactly when every blob of the tip is stored and opens; returns what the tip means. |
| Workspace.TreeOfCommit | crates/cli/src/commands.rs:2169-2178 | Succeeds exactly when commit and tree are stored and well formed. |
| Workspace.Workspace.EffectiveWorkingSet | crates/cli/src/commands.rs:2209-2232 | The committed map patched with the staged edits. |
| Workspace.Workspace.ViewBranch | crates/cli/src/commands.rs:1825-1837 | In every reachable state, locked or not, a ready branch can be viewed, and shows committed map plus edits; any other is refused. |
| Workspace.Workspace.LockAgent | crates/cli/src/agent/daemon.rs:342-349 | A lock empties the cache; the invariant and what every branch means stay. |
| Workspace.Workspace.LogIn | crates/cli/src/agent/daemon.rs:159-182 | A login changes who is resident and nothing else. |
| Workspace.Workspace.ReadyBranch | crates/cli/src/commands.rs:505-589 | A branch becomes ready iff the agent is unlocked for this user and its key is cached or kept sealed for them; the newest copy is unwrapped and its version noted. |
| Workspace.Workspace.SetValues | crates/cli/src/commands.rs:1028-1049 | Stages exactly these values, later pairs winning; every other branch is unchanged. |
| Workspace.Workspace.UnsetKeys | crates/cli/src/commands.rs:1052-1064 | Stages exactly these deletions, with no agent and no store. |
| Workspace.Workspace.CommitStaged | crates/cli/src/commands.rs:1068-1095 | Commits the viewed map on top of the tip, clears the edits, and refuses exactly when not ready or nothing is staged; other branches need no cached key. |
| Workspace.Workspace.BranchCreate | crates/cli/src/commands.rs:810-867 | A new branch under a key no other context has, holding the source's committed map, recorded as its fork root. |
| Workspace.Workspace.ForkRoot | crates/cli/src/commands.rs:841-866 | The root commit has no parents and means the source's committed map under the new key. |
| BranchMachine.Issue | crates/cli/src/commands.rs:1028-1095 | Every command keeps the invariant whichever keys are cached, is accepted exactly when stated, and changes the plain maps as stated. |
| BranchMachine.RunAll | crates/cli/src/commands.rs:1028-1095 | Any run of commands, locks, logins and unwrappings means replaying the accepted commands on plain maps; cache and records change only where stated. |
| BranchMachine.LostKeyStaysLost | crates/cli/src/commands.rs:505-543 | Through any run, a local branch whose key is neither cached nor kept by the server for the user is never ready again. |
| BranchMachine.FreshKeyIsHonestIff | crates/cli/src/commands.rs:810-830 | Creating a branch keeps the server's sealed copies copies of the branches' keys iff it has none under the new name. |
| BranchMachine.OtherBranchesUntouched | crates/cli/src/commands.rs:810-867 | Commands on other branches, forks and merges of it included, leave a branch as it was. |
| BranchMachine.ViewIsLastWrite | crates/cli/src/commands.rs:2206-2232 | Between merges a branch's view is a last-writer map, however edits are spread over commits. |
| BranchMachine.CommitKeepsView | crates/cli/src/commands.rs:1066-1095 | A commit changes no value a user sees. |
| BranchMachine.ForkStartsFromCommitted | crates/cli/src/commands.rs:841-866 | A fork shows the source's committed map, not its pending edits. |
| BranchMachine.ForkShowsSourceIff | crates/cli/src/commands.rs:805-844 | A fork shows what its source shows iff no pending edit of the source changes anything. |
| BranchMachine.ForkMissesPendingEdit | crates/cli/src/commands.rs:805-844 | One staged value, visible on the source and absent from the fork. |
| BranchMachine.MergeCommitsKeyByKey | crates/cli/src/commands.rs:1484-1503 | A merge that finishes commits, for the i-th conflicting key, what the i-th answer chose, and the three-way rule for every other key. |
| BranchMachine.PausesDoNotMatterInRuns | crates/cli/src/commands.rs:1677-1767 | A merge begun, interrupted by any commands elsewhere and by staging, commits and further sessions on its branch, and continued, stays paused or finishes exactly as one merge with all the answers, committing the same map when it finishes. |
| BranchMachine.ContinueIgnoresCommits | crates/cli/src/commands.rs:1677-1767 | What continuing a merge commits does not depend on what was committed during the pause. |
| ForkMerge.ForkMergesBack | crates/cli/src/commands.rs:1538-1557 | Over runs: merging a fork back into its source asks exactly for the keys both changed, differently, away from what the source had committed at the fork; any other key takes the value of the side that changed it; each answer ours, theirs or typed commits just that. |
| ForkMerge.SourceMergesIntoFork | crates/cli/src/commands.rs:1538-1557 | The same for merging the source into the fork, unless the source is itself recorded as forked from a branch of the fork's name. |
| ForkMerge.OlderRecordIsTheBase | crates/cli/src/commands.rs:1538-1557 | Then that record's values are the base. |
| ForkMerge.UnrelatedMerge | crates/cli/src/commands.rs:1530-1536 | Two branches of which neither was forked from the other merge over an empty base. |
| ForkMerge.OneSidedAnswers | crates/cli/src/commands.rs:1459-1470 | Answering ours throughout leaves every conflicting key as we had it; likewise theirs. |
| MergeSession.SessionKeepsPartition | crates/cli/src/state.rs:122-129 | Answered and open keys stay disjoint with union the original conflicts. |
| MergeSession.ResumingIsContinuing | crates/cli/src/commands.rs:1442-1476 | Pausing after some answers and resuming with others is one session with all of them. |
| MergeSession.PausesDoNotMatter | crates/cli/src/commands.rs:1677-1767 | A merge paused and continued any number of times ends where one session with the same answers ends. |
| MergeSession.CrashLosesOneAnswer | crates/cli/src/commands.rs:1431-1434 | Going on from any saved state with the remaining answers gives the uninterrupted result. |
| MergeSession.StateAt | crates/cli/src/commands.rs:1471-1474 | The state saved after so many answers is the session of those answers. |
| MergeSession.LineAt | crates/cli/src/commands.rs:1452-1475 | A loop over the sorted open keys asks, goes on and stops exactly where the session does. |
| MergeSession.EnoughAnswersFinish | crates/cli/src/commands.rs:1452-1475 | A session settles everything iff it has as many answers, before any skip, as there are open keys. |
| MergeSession.LaterStayOpen | crates/cli/src/commands.rs:1452-1475 | A session that stops after n answers leaves exactly the later conflicting keys open, in order. |
| MergeSession.AnswerIsForItsKey | crates/cli/src/commands.rs:1452-1475 | The i-th answer settles the i-th open key, as chosen, and no later answer changes it. |
| MergeSession.FinalIsRulePlusAnswers | crates/cli/src/commands.rs:1484-1501 | Key by key: for the i-th conflicting key the final map has what the i-th answer chose, for every other key what the three-way rule settles. |
| MergeSession.EveryKeyIsSettled | crates/cli/src/commands.rs:1495-1503 | Every key of base, ours and theirs is accounted for. |
| MergeSummary.Summarise | crates/cli/src/commands.rs:1503-1520 | The working set and the three counts of keys added, changed and removed. |
| MergeSummary.SummaryAddsUp | crates/cli/src/commands.rs:1503-1520 | The new size is ours plus added minus removed, and all counts are zero iff nothing changed. |
| MergeSummary.CountedKeys | crates/cli/src/commands.rs:1503-1520 | The counts are those of the keys only the new map has, only the old one has, and both with other values. |
| Merging.RecordAnswer | crates/cli/src/commands.rs:1454-1470 | The recorded entry means the chosen value and opens under the current branch's key, also when theirs won. |
| Merging.AnswerOne | crates/cli/src/commands.rs:1453-1474 | One answer settles the first open key, and the state is saved. |
| Merging.ResolveConflicts | crates/cli/src/commands.rs:1442-1476 | What is saved, one state after each answer, is exactly the line of states of the session; the last is the whole session. |
| Merging.SplitMerge | crates/cli/src/commands.rs:1603-1622 | Settled values and conflicting hashes, each key in exactly one of them. |
| Merging.FoldAnswers | crates/cli/src/commands.rs:1495-1501 | The answers, decrypted, override what the rule settled. |
| Merging.ReadSides | crates/cli/src/commands.rs:1595-1601 | In every state in which both branches are ready, base, ours and theirs decrypt, each under the key chosen for it. |
| Merging.PlanMerge | crates/cli/src/commands.rs:1595-1622 | The rule's outcome on the decrypted maps, with both tips' hashes for each conflict. |
| Merging.FinalizeMerge | crates/cli/src/commands.rs:1484-1529 | A two-parent commit of the final map under the current branch's key, with a truthful summary. |
| Merging.Merge | crates/cli/src/commands.rs:1564-1675 | Exact success condition; afterwards the branch is merged or paused as one session says, with truthful counts, and no other branch changes. |
| Merging.MergeContinue | crates/cli/src/commands.rs:1678-1768 | The same from a saved state; refused unless both branches are ready. |
| Merging.MergeAbort | crates/cli/src/commands.rs:1774-1788 | The branch is as if the merge had never been started. |
| Merging.FinishedMergeKeepsWorkIff | crates/cli/src/commands.rs:1755-1759 | Work committed on top of our saved tip during the pause stays in the merged history iff it is an ancestor of their saved tip. |
| LostWork.NewKeyIsDropped | crates/cli/src/commands.rs:1677-1767 | A key committed during the pause and in none of the three merged maps is gone once the merge is finished. |
| LostWork.PausedMergeLosesWork | crates/cli/src/commands.rs:1677-1767 | A run from nothing: a merge pauses, a key is committed, the merge is continued; the key is out of the view and its commit out of the history. |
| Rotation.TempContextsDiffer | crates/cli/src/commands.rs:2026-2032 | Rotations to different versions stage their keys under different contexts. |
| Rotation.WrapForMembers | crates/cli/src/commands.rs:2049-2064 | One sealed copy of the new key per listed member, in order, and the rotator's own if listed. |
| Rotation.ObjectsForUpload | crates/cli/src/commands.rs:2281-2294 | One acceptable upload per listed hash. |
| Rotation.Reencrypt | crates/cli/src/commands.rs:2035-2047 | The new tip means under the new key what the old tip means under the old one, and none of its blobs opens under the old key. |
| Rotation.BuildBatch | crates/cli/src/commands.rs:2066-2069 | The batch has everything the new tip reaches that the old one does not. |
| Rotation.PerformRotation | crates/cli/src/commands.rs:2010-2106 | Succeeds exactly when the branch exists; then tip, keys, version and sealed copies are as stated for the users with a membership row and everybody else is shut out of the new tip, else nothing changed. Afterwards the workspace is in order, with its meaning, iff nothing was pending and the rotator has a row. |
| Rotation.Revoke | crates/cli/src/commands.rs:1967-1990 | The target is off the list in any case; once the rotation goes through, the target opens no value of the new tip with any key from the server's boxes, every remaining member has the new key, and the values are unchanged. |
| Rotation.SwitchOver | crates/cli/src/commands.rs:2084-2095 | The tip advances and the cached key is exchanged only if the rotator has a copy; exactly when the workspace is then in order. |
| Rotation.CommittedMapSurvives | crates/cli/src/commands.rs:2035-2047 | Rotation keeps the committed map and shuts the old key out of it. |
| Rotation.OldKeyIsShutOut | crates/cli/src/commands.rs:2035-2047 | A tree readable under one key is readable under another only if empty. |
| Rotation.RotationShutsOut | crates/cli/src/commands.rs:1967-1990 | With every key that a person who is not listed can get out of the server's sealed boxes, old and new, no value of the new tip opens. |
| Rotation.UnlistedGetsNoBox | crates/cli/src/commands.rs:2049-2064 | Sealing the new key for the listed members gives nobody else a box with it. |
| Rotation.GrantedToAll | crates/server/src/handlers.rs:902-914 | Every member's stored box opens to the new key. |
| Rotation.ReadableAfterRotationIff | crates/cli/src/commands.rs:2035-2047 | After the switch the branch can be read iff nothing but deletions was staged. |
| Rotation.ForkRootAfterRotationIff | crates/cli/src/commands.rs:1538-1557 | A fork root is readable under the new key iff it is empty. |
| Rotation.RotationIsInvisible | crates/cli/src/commands.rs:2084-2095 | Every branch stays readable, with its meaning, iff nothing was pending under the old key: staged values, a fork record with values, or a paused merge needing a value of the branch. |
| Rotation.MergeRekeyedIff | crates/cli/src/commands.rs:1678-1725 | Exactly when a paused merge survives the rotation of either of its branches, and that it then means what it meant. |
| Adoption.PullAndAdopt | crates/cli/src/commands.rs:549-561 | A pull that fast-forwards moves the tip past the old one; the workspace stays in order, showing the pulled values, iff that tip is readable under the branch's key and soundly stored. |
| Adoption.CompletePullIsAdoptable | crates/sync/src/pull.rs:101-109 | A complete, linear, well-typed history sealed under the branch's key is such a tip. |
| Render.RenderShell | crates/cli/src/commands.rs:2342-2351 | One quoted export line per key, in key order. |
| Render.QuoteEscapes | crates/cli/src/commands.rs:2342-2351 | Each single quote is closed, escaped and opened again; nothing else is changed. |
| Render.ShellRoundTrip | crates/cli/src/commands.rs:2338-2351 | Read by sections 2.2.1 and 2.2.2 of the POSIX.1-2017 Shell Command Language, the text gives back exactly the pairs, whatever the values, iff every character of every key stands for itself outside quotes and is not an equals sign. |
| Render.KeyMayNeedQuoting | crates/cli/src/main.rs:725-738 | A key that staging accepts and whose exported line does not read back. |
| Render.RenderDotenv | crates/cli/src/commands.rs:2320-2336 | One dotenv line per key, in key order, quoted exactly when needed. |
| Render.BareIff | crates/cli/src/commands.rs:2326-2334 | A value is written bare exactly if it has no white space, equals sign, quote or hash. |
| Render.DotenvEscapes | crates/cli/src/commands.rs:2330-2331 | A backslash goes before each backslash and double quote; nothing else is changed. |
| Render.DotenvRoundTrip | crates/cli/src/commands.rs:2318-2336 | The text decodes to exactly the pairs iff no key contains an equals sign. |
| Render.EqualsInKeyIsAmbiguous | crates/cli/src/commands.rs:2330-2334 | Two different lists with the same text. |
| PrefixLookup.ResolvePrefix | crates/objects/src/store.rs:81-112 | The pruned scan finds exactly what filtering a scan of the whole store finds, for every prefix length. |
| PrefixLookup.PrunedHoldsNothing | crates/objects/src/store.rs:91-97 | A skipped directory holds no match, whatever files it has. |
| PrefixLookup.ScanDir | crates/objects/src/store.rs:98-109 | One directory's matches. |
| PrefixLookup.ScanFinds | crates/objects/src/store.rs:91-109 | A full scan finds a hash exactly if some file's path spells it: 64 hex digits, two of them the directory's name. |
| PrefixLookup.ParseCommitHash | crates/cli/src/commands.rs:2135-2165 | 64 hex digits give that hash in lower case, whatever is stored; a shorter or longer hex argument gives the one stored commit that starts with it, or says that there is none, or lists every candidate; anything else is not a hash. |
| PrefixLookup.ShortHashInverts | crates/cli/src/commands.rs:2135-2165 | Parsing a short hash gives back its commit iff one stored file matches: no other stored commit shares it, and no second file spells the same hash. |

## Left out

- PullGuarantees.PullIsComplete: assumes that no tree of the remote mainline names a commit of that mainline as a value; `CommitNamedAsBlobStopsTheWalk` shows why, and `AnswerIsRightIff` and `Pull.FastForwardIsSafe` need no assumption.
- Replication.RefsAlwaysComplete: clients only push what they committed or adopted; one that fabricates history can make the server point at an incomplete one, because the server checks only that the target is stored.
- Replication.RefsOnlyAdvance: needs clients that check descent before pushing, which the command does not do; `SwapKeepsHistoryIff` is exact without the assumption.
- Rotation.PerformRotation: assumes that no branch is named like the temporary context `<branch>::rotate::<n>`, and that the server's sealed boxes hold only keys drawn before the new one, which is what drawing a fresh random key means here.
- BranchMachine.RunAll: the sealed keys the server keeps for the user are a parameter that a run does not change, they hold the branches' keys, and no branch is created under one of their names; `FreshKeyIsHonestIff` is exact. Rotations and pulled tips are not events of a run, because either may leave a state nobody can read; their own contracts say when they do not, and the run theorem applies before and after them.
- Merging.MergeContinue: branch names are taken to contain no `/`, because the code recovers the name from the branch key by its last part; commit messages use that part.
- Render.ShellRoundTrip: the reader takes the text apart into words and assignments, refusing characters special to the shell outside quotes; that `export` itself accepts only names of letters, digits and underscores is not modelled.
- Authorisation, roles, sessions, login against the server, machine tokens and organisations: a handler call stands for one that passed its check.
- HTTP, status codes, SQL text, base64, JSON and TOML encodings, and I/O errors: an object is a term, a handler one atomic step, a save one assignment.
- Kind sniffing as JSON shapes, and the `kind` column of the server's object table: the kind is checked on upload and not used afterwards.
- The spelling of hashes: the server keeps the text it was sent; the model identifies texts that spell the same hash.
- Real cryptography, key derivation and zeroisation. Freshness of random keys is a counter; that nonces differ is not stated, and no result depends on it.
- The wall clock: timestamps are parameters.
- The prompt's text and its reaction to unrecognised input: an answer list, whose end counts as a skip.
- UTF-8 checks when exporting: values are strings.
- The automatic unwrap and pull before a command: unwrapping is a command of its own, and an unready branch is refused.
- `clone`, `init`, `status`, `run`, export files, and the command around granting: plumbing around the modelled operations.
- Concurrent commands of one user on one state file: commands run one after another.
- Push.CollectObjectsToPush: when a tree names a commit or tree as a value, the exact description of the list does not apply, because one shared set of seen hashes then makes the walk skip objects.
- The dashboard and its bindings repeat the walk and the per-object checks.
