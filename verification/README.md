# A verified model of arbitro-raft

arbitro-raft is a Raft library in Rust. This project models its node as a state
machine, composes nodes and a lossy network into whole runs, and proves what the
library is for: one leader per term, matching logs, committed entries that stay
committed, and reads that are never stale. Around that core it models the data
structures a node depends on, in the imperative form the library has them.

Everything is in Dafny 4.11; `dafny verify dfyconfig.toml` checks it all.

## How the model is built

* `Types`, `Quorum` - shared types; majorities, the commit-quorum index, joint
  (two-majority) configurations.
* `NodeSpec` - every handler of a node as a function on a `Node` value.
* `RaftNode` - the same handlers as methods of a class that changes its fields, its
  storage, its term ring and its cached tip in place. Each method is proved equal
  to the `NodeSpec` function.
* `Cluster` - nodes plus a set of messages. A message once sent may be delivered any
  number of times, in any order, or never; nodes crash and restart. A run is a
  sequence of labelled steps. A history (votes, elections, the log of each term,
  acknowledgements, commits) is recorded and read by no step.
* `ElectionSafety`, `LogMatching` (with `Prefix`), `CommitSafety`,
  `StateMachineSafety`, `ReadIndex`, `Repair` - the whole-run theorems.
* `Counterexamples` - concrete runs that show each condition is needed.
* `Arena`, `NodeLog`, `Gather`, `Membership`, `ApplyLoop`, `SnapshotTransfer`,
  `Waiters`, `Demux`, `Bytes`, `Codec`, `Frames` - the parts of one node.

Clocks, timeouts and the network are nondeterminism: any enabled step may come
next. Calls into storage follow the contract of the storage trait and succeed.

## What does not hold, and exactly when it does

Some textbook statements are false of the code. The model keeps the code as it is.

* *One vote per term.* A leader that loses contact with its quorum steps down in the
  unchanged term and clears its vote. That alone does no harm
  (`AbdicationIsCovered`); its second vote, for another candidate of the term it led,
  does, and so does a campaign at the largest 64-bit term that overwrites another's
  vote. `VotesBindIff` says these two, `ReusesVote`, are exactly the steps that
  contradict a recorded vote, and `OneLeaderPerTerm` assumes neither happens;
  `StepDownGivesTwoLeaders` and `LastTermGivesTwoLeaders` are runs with two leaders of
  one term. The later theorems assume `KeepsVote`, which also rules out campaigning
  again in the last term.
* *Committed entries stay.* A follower acknowledges its own tip, not the last entry
  the request verified. `OwnTipLosesCommits` is a run in which two nodes commit
  different entries at one index. `TipMeansPrefix` says exactly when an
  acknowledgement is true, and `AckWithinRequest` that one within the request's
  entries always is. The response handlers also never compare a response's term for
  being old; `StaleAnswerLosesCommits` is a run in which an answer of term 1 counts
  in term 3 and a later leader lacks a committed entry. `StaleReplyIff` and
  `StalePendingReplyIff` say exactly which old answers are harmless. The theorems
  about commits assume `TipOnLeaderLog` and `FreshReply`; the latter lets through
  every old answer that raises nothing the leader has recorded.
* *Read rounds.* The token counter restarts at 0 with the process and wraps, so an
  old append refused late can confirm a new round: `RestartConfirmsStaleRound`.
  `RoundBeginsIff` says exactly when a round begins well: no buffered answer with its
  token and term comes from a node that has moved on. The read theorems assume that
  and nothing about earlier restarts; a process that was never restarted and began
  fewer than 2^32 rounds always meets it (`OneProcessIsFresh`).
* *Repair always progresses.* It does exactly when the check passes at the recorded
  match, or at the next position where that lies below the match (`RepairsIff`);
  otherwise the follower's log never changes, whatever is exchanged. In the runs the
  safety theorems cover it always does (`EveryRunRepairs`); a falsely recorded match
  ends it: `OwnTipStallsRepair`.
* *The ack counter is the quorum.* It never claims a quorum that is not there
  (`FastCountIsQuorum`), but it may lag behind one: with the voters it left out added
  it is exact (`CounterIsExact`), and `UnawaitedHolder` is a voter left out because
  its first send failed.
* *Undoing a joint activation restores the members.* Only if it promoted no learner
  (`RevertJointRestoresIff`); `PromotedLearnerIsLost` is one that does not come back.
* *A restored node's cached tip is the stored one.* Only if storage kept nothing
  above the boundary (`RestoreTipIff`, `RestoreHidesTip`).
* *An installed snapshot leaves the node able to restart.* Any completed snapshot is
  saved, also one older than the one on disk. Everything committed stays in reach
  exactly when it is not older, or the log still holds the entry after it
  (`InstallKeepsIff`); `LateInstallStrands` is a late install that loses an entry.
* *A snapshot transfer ends.* In lockstep it ends exactly when the snapshot fits the
  follower's limit, or its first chunk alone does not, or one answer without progress
  is enough to give up (`LockstepEndsIff`): any accepted chunk resets the count.
* *The sender's success means the snapshot was saved.* Only if the answer names the
  whole length (`InstalledIsSavedIff`); a repeated answer to an earlier chunk ends the
  transfer too (`RepeatedAnswerEndsEarly`).
* *Draining waiters releases exactly the committed ones.* Only if the last waiter is
  not due or all are (`DrainExactIff`); the slow path destroys the order the fast
  path relies on (`OrderIsLost`).
* *The two encoders agree.* Only if a batch's head states its true entry count
  (`VectoredIsContiguousIff`, `WrongCountDiffers`).

Two results have a side condition that the code always meets. The commit index stays on
the leader's log in every term above 0 (`AdvanceRule`), and no node leads term 0. The
counter counts the leader itself, which is right if it votes (`CounterIsExact`), and
every leader does (`LeadersVote`).

Two comments in the source disagree with its code, and the model follows the code:
`src/api/transport/multiplex.rs:30` says a full inbox sheds its oldest frames, but
the incoming frame is dropped; `src/api/transport/multiplex.rs:182` says the driver
takes the oldest frame of any group, but it takes groups in turn.

## Model

| member | source | states |
|---|---|---|
| `Quorums.QuorumIndexIsGreatest` | src/api/node/replication/shared.rs:474-500 | sort-and-pick is the greatest index a strict majority of the list acknowledged: k is at most it exactly when a majority acknowledged k |
| `Quorums.JointIndexIsGreatest` | src/api/node/replication/shared.rs:335-360 | the smaller of the two side indexes is the greatest index both majorities reach |
| `Quorums.MeetsIsCounting` | src/api/node/replication/shared.rs:254-286 | the propose-time predicate is the counting predicate on each side; an empty side never passes |
| `Quorums.SubsetQuorumIndex` | src/api/node/replication/shared.rs:474-500 | the loop that refills and sorts the ack buffer returns that greatest index, and none for an empty list |
| `Quorums.HandOff` | src/api/node/election.rs:141-148 | any vote list that wins and any acks that commit under equal or adjacent configurations share a voter |
| `Quorums.UnionMajorityMisses` | src/api/node/election.rs:12-15 | a bare majority of the union of old and new voters can miss every voter that holds a committed index |
| `NodeSpec.AdvanceRule` | src/api/node/replication/shared.rs:313-395 | in a plain or joint configuration the commit index never falls, moves only to the greatest index that meets the commit quorum, only onto a current-term entry, and stays on the log even when followers report longer ones, in every term above 0 |
| `NodeSpec.AdvanceMoves` | src/api/node/replication/shared.rs:335-395 | it does move when the greatest index that meets the quorum is new, on the log and of the current term |
| `NodeSpec.JointAdvance` | src/api/node/replication/shared.rs:336-357 | while a transition is active, what is committed has a majority of the old voters and a majority of the new, and neither side is empty |
| `ElectionSafety.OneLeaderPerTerm` | src/api/node/election.rs:22-103 | in every run in which no second vote is cast in one term, abdications included, nodes leading one term at any two moments are the same node |
| `ElectionSafety.StepBinds` | src/api/node/election.rs:150-282 | every step that casts no second vote, the same-term step-down included, keeps votes binding, grants recorded, candidates' votes counted once and elections carried by a majority |
| `ElectionSafety.StepKeeps` | src/api/node/election.rs:150-282 | a step that also keeps out of the last term keeps, besides, that a winner campaigns no more in its term |
| `ElectionSafety.WinIsNew` | src/api/node/election.rs:216-241 | a candidate with a majority of granted votes is the first to win its term |
| `ElectionSafety.VotesBindIff` | src/api/node/mod.rs:816-823 | a step contradicts a recorded vote exactly when it is the vote of a node in a term it led itself or a last-term campaign over another's vote |
| `ElectionSafety.LeadersVote` | src/api/node/election.rs:22-27 | whoever leads, at any moment of a run, is one of the voters |
| `LogMatching.LogsMatch` | src/api/node/replication/handler.rs:29-108 | logs at any two moments of a run that hold one term at one index are equal up to it, and entries carry their positions |
| `LogMatching.MergeFollowsLead` | src/api/node/replication/handler.rs:241-281 | the consistency check passes only on an agreed prefix, and the merge leaves the log itself or a cut of the leader's |
| `LogMatching.StepKeeps` | src/api/node/replication/shared.rs:16-152 | every step keeps the log invariants and only extends term logs, votes and elections |
| `CommitSafety.LeaderComplete` | src/api/node/election.rs:257-267 | an entry a majority acknowledged in its own term is in the log every later leader starts from |
| `CommitSafety.BackedAgree` | src/api/node/replication/shared.rs:313-395 | any two committed prefixes agree as far as both go |
| `CommitSafety.CommitKeeps` | src/api/node/replication/shared.rs:313-395 | the run loop's advance commits only what a majority acknowledged in the leader's term |
| `CommitSafety.FastCommitKeeps` | src/api/node/replication/shared.rs:293-304 | so does the propose-time commit |
| `CommitSafety.StaleReplyIff` | src/api/node/replication/handler.rs:390-420 | an answer of an earlier term keeps what the leader has recorded true exactly when it raises nothing or the peer acknowledged that much in the leader's own term |
| `CommitSafety.StalePendingReplyIff` | src/api/node/replication/handler.rs:436-494 | the same for the gather's handler, which also forgets higher matches |
| `StateMachineSafety.TipMeansPrefix` | src/api/node/replication/handler.rs:281-291 | an acknowledged tip is on the leader's log, by term at that index, exactly when the whole log is a prefix of it |
| `StateMachineSafety.AckWithinRequest` | src/api/node/replication/handler.rs:281-291 | an acknowledgement within the entries of its request always meets the tip condition |
| `StateMachineSafety.StepKeeps` | src/api/node/replication/handler.rs:390-494 | every step under the conditions keeps what was acknowledged, counted and committed |
| `StateMachineSafety.CommitsAgree` | src/api/node/replication/shared.rs:313-395 | what any node committed at any moment and what any node committed at any other moment agree entry by entry |
| `StateMachineSafety.LaterLeadersHaveIt` | src/api/node/election.rs:257-267 | everything committed at any moment is in the log of every later-term leader at every moment of its leadership |
| `StateMachineSafety.CommitNeverLowered` | src/api/node/mod.rs:470-473 | no step of a run but the restart of its own process lowers a node's commit index |
| `StateMachineSafety.CommittedIsKept` | src/api/node/replication/handler.rs:29-108 | what a node had committed at any moment is in its own log at every later moment, across all leaders it followed and all its restarts |
| `ReadIndex.NobodyHadTakenOver` | src/api/node/read_index.rs:149-251 | a confirmed round proves no election of a later term had been won when the round began, if no answer buffered then was stale |
| `ReadIndex.ReadPointCovers` | src/api/node/read_index.rs:85-129 | under the same condition the recorded read index is at least every commit index any node held at any moment up to the start of the round |
| `ReadIndex.RoundBeginsIff` | src/api/node/read_index.rs:154-178 | a round begins with nothing that could be counted falsely exactly when no buffered answer with its token and term comes from a node in a later term |
| `ReadIndex.OneProcessIsFresh` | src/api/node/read_index.rs:154-178 | a process never restarted, with fewer than 2^32 rounds, meets that condition at every round |
| `ReadIndex.ReadsInOneProcess` | src/api/node/read_index.rs:85-251 | for such a process a confirmed round is fresh and its read point covers everything committed before, with no further condition |
| `ReadIndex.TokensCountRounds` | src/api/node/read_index.rs:154-169 | in one process the token is the number of rounds begun, and nothing sent or answered carries a later one |
| `ReadIndex.AnswersAreTruthful` | src/api/node/replication/handler.rs:18-21 | whatever an append is answered with, the sender was in no later term than the answer says |
| `Repair.NextStaysInBounds` | src/api/node/replication/handler.rs:390-434 | in every run with binding votes, next is between 1 and one past the log for every tracked peer |
| `Repair.Repairs` | src/api/node/replication/handler.rs:259-279 | where repair is possible, whatever match is recorded, in-order delivery needs at most next exchanges to make the leader's log a prefix of the follower's; each reject lowers next by one |
| `Repair.RepairsIff` | src/api/node/replication/handler.rs:390-434 | exchanges repair the follower exactly when the check passes at the recorded match, or at the next position where that is below it; otherwise no number of exchanges changes the follower's log |
| `Repair.Stalls` | src/api/node/replication/handler.rs:421-432 | where the check fails and the reject's hint is below the recorded match, no number of exchanges changes the leader or the follower's log |
| `Repair.EveryRunRepairs` | src/api/node/replication/handler.rs:390-434 | in every run the safety theorems cover, at any moment, at most next exchanges with a tracked peer in no later term make the leader's log a prefix of its log |
| `Repair.Rejects` | src/api/node/replication/handler.rs:421-432 | a reject lowers next by exactly one if its hint is not below the match index, and changes nothing otherwise |
| `Repair.Accepts` | src/api/node/replication/handler.rs:412-420 | an accepted exchange makes the leader's log a prefix of the follower's and raises match to it |
| `Counterexamples.AllRules` | src/api/node/mod.rs:816-867 | the conditions the counterexample runs keep to are, taken together, the hypotheses of the theorems |
| `Counterexamples.OrdinaryRun` | src/api/node/replication/shared.rs:313-395 | the conditions can be met: a run that keeps to all of them elects a leader, replicates an entry and commits it |
| `Counterexamples.StepDownGivesTwoLeaders` | src/api/arbitro_raft/run.rs:360-367 | a run in which an abdicated leader votes again in its term and two nodes lead term 1 |
| `Counterexamples.AbdicationIsCovered` | src/api/registry/driver.rs:569-579 | a run that keeps to every condition in which a leader abdicates and another leads next |
| `Counterexamples.LastTermGivesTwoLeaders` | src/api/node/election.rs:33-39 | a run in which two nodes lead the largest term |
| `Counterexamples.OwnTipLosesCommits` | src/api/node/replication/handler.rs:281-295 | a run, with binding votes and current answers, in which two nodes commit different entries at index 1 |
| `Counterexamples.OwnTipStallsRepair` | src/api/node/replication/handler.rs:281-295 | the same run leaves a leader whose follower lacks its entry and never gets it |
| `Counterexamples.StaleAnswerLosesCommits` | src/api/node/replication/handler.rs:390-420 | a run, with binding votes and true tips, in which a later leader lacks a committed entry |
| `Counterexamples.RestartConfirmsStaleRound` | src/api/node/mod.rs:452 | a run meeting every condition on votes and answers in which a restarted leader, with a stale answer buffered, confirms a round although a later leader was elected before it |
| `RaftNode.Raft.AdoptTerm` | src/api/node/mod.rs:816-823 | a step-down, also into the unchanged term, ends in no vote and no leadership and leaves log and commit index alone |
| `RaftNode.Raft.StandForElection` | src/api/node/election.rs:28-40 | a campaign votes for itself, raises the term unless it is the last, and starts with votes counted once each from voters and itself |
| `RaftNode.Raft.HandleVoteRequest` | src/api/node/election.rs:243-282 | the in-place vote handler is the specified one, including when it grants |
| `RaftNode.Raft.HandleVoteReply` | src/api/node/election.rs:178-211 | votes stay counted once each, from voters that answered and the node itself; one is added only for a granted answer of the current term from a voter not heard before |
| `RaftNode.Raft.InitProgress` | src/api/node/replication/shared.rs:154-197 | the loops give every member but the leader fresh progress at the tip |
| `RaftNode.Raft.BecomeLeader` | src/api/node/election.rs:82-86 | winning sets role, leader and fresh progress as specified |
| `RaftNode.Raft.AppendBatch` | src/api/node/replication/propose/initial.rs:76-110 | a proposed batch extends the log with consecutive entries of the current term |
| `RaftNode.Raft.HandleAppend` | src/api/node/replication/handler.rs:209-297 | the in-place append handler over storage, ring and cached tip is the specified one, with its answer |
| `RaftNode.Raft.HandleAppendReply` | src/api/node/replication/handler.rs:390-434 | the in-place response handler is the specified one |
| `RaftNode.Raft.HandlePendingReply` | src/api/node/replication/handler.rs:436-494 | the in-place gather handler is the specified one, and says exactly when the peer holds the batch |
| `RaftNode.Raft.TryAdvanceCommit` | src/api/node/replication/shared.rs:313-395 | the in-place commit advance, over both sides of a joint configuration or the one plain one, is the specified one |
| `RaftNode.Raft.StartReadRound` | src/api/node/read_index.rs:154-178 | a round takes a token between 1 and 2^32-1 other than the last one and records the read point |
| `RaftNode.Raft.CountAnswer` | src/api/node/read_index.rs:226-241 | acks stay counted once each, from voters and the node itself; an answer adds at most one and leaves the read point alone |
| `RaftNode.MergeIsMerged` | src/api/node/replication/handler.rs:29-108 | the scan of the specification and the stored merge are the same log, and refuse the same batches |
| `Arena.LogMetadataArena.Append` | src/api/node/generational.rs:39-67 | the ring after an append stands for the window slid by one, extended, or started anew |
| `Arena.LogMetadataArena.GetTerm` | src/api/node/generational.rs:69-86 | a lookup in the ring is a lookup in the window |
| `Arena.LogMetadataArena.TruncateSuffix` | src/api/node/generational.rs:88-107 | truncation cuts the window |
| `Arena.LogMetadataArena.Clear` | src/api/node/generational.rs:109-119 | clearing empties it at a new base |
| `Arena.ExtendLookup` | src/api/node/generational.rs:39-67 | after an append the new index is known and no other answer changes |
| `Arena.CutoffLookup` | src/api/node/generational.rs:88-107 | truncation forgets exactly the indexes from the cut on |
| `NodeLog.MergedIs` | src/api/node/replication/handler.rs:29-108 | the merged log is contiguous, unchanged up to prev and has the batch's terms on the batch's range |
| `NodeLog.MergedKeeps` | src/api/node/replication/handler.rs:45-69 | entries that already match are kept, and a batch that matches throughout changes nothing |
| `NodeLog.MergedTwice` | src/api/node/replication/handler.rs:29-108 | receiving the same batch again changes nothing |
| `NodeLog.Log.ApplyAppend` | src/api/node/replication/handler.rs:29-108 | the interleaved form leaves the merged log, a true tip and the latest change among the new entries, and refuses a batch out of step untouched |
| `NodeLog.Log.ApplyAppendSeeded` | src/api/node/replication/handler.rs:110-207 | the seeded form leaves the same log, tip and adopted change for the same entries |
| `NodeLog.Log.Scan` | src/api/node/replication/handler.rs:44-69 | the conflict scan stops at the first header out of step, conflicting or missing |
| `NodeLog.Log.TermAt` | src/api/node/replication/shared.rs:206-241 | the term of an index is the stored one, the boundary's where the entry is gone, and an error elsewhere; the ring stays right |
| `NodeLog.Log.Truncate` | src/api/node/mod.rs:871-876 | truncation cuts storage and ring alike and refreshes the tip |
| `NodeLog.Log.AppendPropose` | src/api/node/replication/propose/initial.rs:76-110 | proposed payloads become consecutive entries, an empty batch is refused |
| `NodeLog.Log.Restore` | src/api/node/snapshot_install.rs:180-204 | a restore keeps only what lies above the boundary, or nothing on conflict, and moves tip and boundary |
| `NodeLog.RestoreTipIff` | src/api/node/snapshot_install.rs:186-204 | the cached tip is the stored one after a restore exactly when storage kept nothing above the boundary |
| `NodeLog.RestoreHidesTip` | src/api/node/snapshot_install.rs:186-204 | two stored entries and a snapshot at the first: the tip says 1 and storage ends at 2 |
| `NodeLog.LatestChange` | src/api/node/replication/handler.rs:96-98 | the backward search finds the last configuration change |
| `NodeLog.ForwardChange` | src/api/node/replication/handler.rs:187-200 | the forward search finds the same one |
| `Gather.FastCountIsQuorum` | src/api/node/replication/propose/quorum.rs:83-173 | after any frames in any order, a counter at the majority means a majority of the voters holds the batch, while the node leads its term and votes |
| `Gather.CounterIsExact` | src/api/node/replication/propose/quorum.rs:13-41 | a majority holds the batch exactly when the counter, less the leader's own ack if it does not vote, reaches the majority together with the holders it left out |
| `Gather.UnawaitedHolder` | src/api/node/replication/propose/quorum.rs:13-41 | a voter whose first send failed makes the majority without being counted |
| `Gather.NoCount` | src/api/node/replication/propose/quorum.rs:25-35 | learners, repeated answers and rejections never move the counter |
| `Gather.GatherAcks` | src/api/node/replication/propose/quorum.rs:47-173 | the loop stops at the counter, with nobody awaited or out of frames, and its result implies the quorum |
| `Membership.RoundTrip` | src/api/node/membership.rs:122-219 | decoding an encoded change gives it back, whatever follows it |
| `Membership.DecodeIsEncoding` | src/api/node/membership.rs:150-219 | whatever decodes starts with the encoding of what it decodes to, up to the reserved byte |
| `Membership.NoopIsNoChange` | src/api/node/membership.rs:36-49 | the no-op entry decodes to no change and no change encodes to it |
| `Membership.EncodeEntry` | src/api/node/membership.rs:122-144 | the encoder's loops produce the specified bytes |
| `Membership.DecodeEntry` | src/api/node/membership.rs:150-219 | the decoder's cursor loops compute the specified result |
| `Membership.AdoptKeepsWf` | src/api/node/membership.rs:228-289 | adopting any well-formed entry keeps the lists duplicate-free and disjoint, and a joint pair's voters exactly its union |
| `Membership.HistoryKeeps` | src/api/node/membership.rs:228-364 | so does any sequence of adopted and abandoned entries, with progress for exactly the other members |
| `Membership.RevertJointRestoresIff` | src/api/node/membership.rs:301-307 | undoing a joint activation restores the configuration exactly when the entry promotes no learner |
| `Membership.PromotedLearnerIsLost` | src/api/node/membership.rs:301-307 | a learner promoted by a joint entry is no member any more once the entry is undone |
| `Membership.RevertProgress` | src/api/node/membership.rs:329-364 | over an activation and its revert progress comes back, except that removed members start over |
| `Membership.Group.Apply` | src/api/node/membership.rs:228-291 | the in-place adoption is the specified one; a leader outside the new voters steps down |
| `Membership.Group.Reconcile` | src/api/node/membership.rs:329-364 | the loops drop stale progress and add missing progress, keeping the rest |
| `Membership.Group.UndoJoint` | src/api/node/membership.rs:301-307 | the in-place revert of a joint activation |
| `Membership.Group.UndoLearners` | src/api/node/membership.rs:315-320 | the in-place revert of a learner change |
| `ApplyLoop.Applier.ApplyCommitted` | src/api/arbitro_raft/run.rs:43-115 | the apply batch always reaches the commit index, with the machine equal to the fold of committed non-control entries, or ahead of it where its own durable cursor is |
| `ApplyLoop.Applier.ApplyOne` | src/api/registry/driver.rs:666-688 | the next entry is always found, and is applied in order, control entries to the membership layer only |
| `ApplyLoop.Applier.ApplyAt` | src/traits/state_machine.rs:20-53 | an entry is taken once: a durable machine past it is left as it is, any other takes it and stays the fold |
| `ApplyLoop.Applier.RestoreFromSnapshot` | src/api/node/snapshot_install.rs:145-210 | a restore happens exactly when the snapshot is ahead, lands on its state and keeps everything committed in reach |
| `ApplyLoop.Applier.MaybeCompact` | src/api/node/log_compaction.rs:67-131 | compaction removes nothing at or above what is applied, nor anything at or above a voter's recorded match, and snapshots the fold |
| `ApplyLoop.Applier.Horizon` | src/api/node/log_compaction.rs:111-128 | the loop finds the lowest index every voter is known to hold, capped by what is applied |
| `ApplyLoop.Applier.Compact` | src/api/node/log_compaction.rs:143-191 | the snapshot is the machine at last applied, only entries below the horizon go, and everything committed stays in reach |
| `ApplyLoop.Applier.Restart` | src/api/node/mod.rs:395-460 | a restart keeps storage, snapshot and a machine that is durable itself, and everything committed stays in reach |
| `ApplyLoop.Applier.RestartAndReplay` | src/traits/state_machine.rs:7-26 | told any commit index it had known before, a restarted node gets its machine there in one apply batch |
| `ApplyLoop.Applier.Store` | src/api/node/replication/handler.rs:29-108 | storing a batch that agrees with what is committed keeps it all stored and in reach |
| `ApplyLoop.StoreKeeps` | src/api/node/replication/handler.rs:29-108 | the merge changes nothing at or below the highest index ever known committed |
| `ApplyLoop.Applier.AdvanceCommit` | src/api/node/mod.rs:470-473 | moving the commit index over stored entries, or up to one known before, keeps the invariant |
| `ApplyLoop.Applier.SaveInstalled` | src/api/node/snapshot.rs:270-312 | any true snapshot is saved and moves commit and log; everything committed stays in reach exactly when it is not older than the one it replaces or the log holds the entry after it |
| `ApplyLoop.InstallKeepsIff` | src/api/node/snapshot.rs:270-312 | the same condition on values: when a restored log and the new boundary together still reach the highest committed index |
| `ApplyLoop.LateInstallStrands` | src/api/node/snapshot.rs:270-312 | two committed entries, restored at the second, then the snapshot of the first again: the second is nowhere |
| `SnapshotTransfer.AnyDelivery` | src/api/node/snapshot.rs:220-275 | under any loss, duplication, reordering and eviction the buffer is a prefix of the sender's snapshot and every saved one is whole |
| `SnapshotTransfer.ReceiveKeepsPrefix` | src/api/node/snapshot.rs:220-275 | the same for one chunk on any buffer |
| `SnapshotTransfer.Follower.Handle` | src/api/node/snapshot.rs:220-275 | the in-place chunk handler is the specified one and leaves other senders alone |
| `SnapshotTransfer.SendSnapshot` | src/api/node/snapshot.rs:23-156 | whatever arrives, every chunk sent is a piece of the snapshot that starts where the answer before said; each of the six ways the loop ends has its cause in the last thing received, and giving up in as many idle answers in a row as allowed |
| `SnapshotTransfer.InstalledIsSavedIff` | src/api/node/snapshot.rs:108-117 | an answer that ends the transfer comes with the snapshot saved exactly when it names the whole length |
| `SnapshotTransfer.RepeatedAnswerEndsEarly` | src/api/node/snapshot.rs:108-117 | two chunks and the first answer twice: the transfer ends with nothing saved |
| `SnapshotTransfer.LockstepEndsIff` | src/api/node/snapshot.rs:28-144 | in lockstep, whatever was buffered, the transfer ends exactly when the snapshot fits, or its first chunk does not, or one idle answer is enough; installed in the first case and given up in the others |
| `Waiters.CommitWaiters.Drain` | src/api/arbitro_raft/run.rs:602-630 | a drain splits the waiters into kept and released, none lost or doubled; the slow path by the commit index, the fast path all |
| `Waiters.DrainExactIff` | src/api/arbitro_raft/run.rs:608-618 | a drain releases exactly the committed waiters exactly when the last one is not due or all are |
| `Waiters.InOrderIsExact` | src/api/arbitro_raft/run.rs:608-618 | waiters in index order are released exactly |
| `Waiters.OrderIsLost` | src/api/arbitro_raft/run.rs:620-629 | five waiters in order, drained at 2 and then at 3, are released too early |
| `Demux.DemuxShared.Park` | src/api/transport/multiplex.rs:146-180 | a frame is queued last, or counted as of an unknown group, or counted as overflow; nothing else changes |
| `Demux.DemuxShared.TryPop` | src/api/transport/multiplex.rs:108-142 | a group gets its own oldest frame, and nothing exactly when it has none; a frame too long for the buffer is counted as discarded |
| `Demux.DemuxShared.PopParked` | src/api/transport/multiplex.rs:183-211 | the driver gets the oldest frame of some group, and nothing exactly when nothing is parked |
| `Demux.DemuxShared.Register` | src/api/transport/multiplex.rs:95-97 | registering adds an empty inbox once |
| `Demux.DemuxShared.Unregister` | src/api/transport/multiplex.rs:99-104 | unregistering discards and accounts for what waited |
| `Demux.Put` | src/api/transport/multiplex.rs:146-211 | changing one inbox keeps order, bounds, the ready queue and the count |
| `Demux.SomeoneQueued` | src/api/transport/multiplex.rs:47-56 | the count is zero exactly when every inbox is empty, and otherwise the ready queue has a head |
| `Codec.PutGet` | src/protocol/codec/wire.rs:37-171 | a fixed layout read back gives the values written |
| `Codec.GetPut` | src/protocol/codec/wire.rs:37-171 | values read and written again are the bytes read |
| `Codec.EntriesRoundTrip` | src/protocol/message.rs:145-171 | the iterator yields exactly the entries written |
| `Codec.ValidIterates` | src/protocol/codec/decode.rs:28-44 | a body that validates iterates to exactly its count |
| `Codec.ValidateBody` | src/protocol/codec/decode.rs:28-44 | the validator's loop accepts exactly count entries and nothing after them |
| `Codec.EntryIter.Next` | src/protocol/message.rs:148-172 | each call takes the first of the remaining entries |
| `Frames.RoundTrip` | src/protocol/codec/decode.rs:73-205 | decoding an encoded message gives back sender and fields, batches as one block |
| `Frames.DecodeThenEncode` | src/protocol/codec/encode/contiguous.rs:10-153 | a frame that decodes with nothing in the ignored fields is the encoding of what it decodes to |
| `Frames.EntriesArrive` | src/protocol/codec/encode/contiguous.rs:46-71 | the entries of a batch arrive as sent |
| `Frames.SeededArrives` | src/protocol/codec/encode/contiguous.rs:127-146 | so do the entries of a seeded batch |
| `Frames.SeededBack` | src/protocol/message.rs:196-231 | a seeded block built from entries is read back as those entries |
| `Frames.DecodedIterates` | src/protocol/codec/decode.rs:130-134 | any append frame that decodes iterates to exactly its entry count |
| `Frames.SeededIterates` | src/protocol/codec/decode.rs:46-69 | any seeded frame that decodes has exactly its count of headers, using up the payload block |
| `Frames.VectoredIsContiguousIff` | src/protocol/codec/encode/vectored.rs:33-318 | for group 0 the joined slices are the contiguous frame exactly when a batch's head states its true count |
| `Frames.WrongCountDiffers` | src/protocol/codec/encode/vectored.rs:33-318 | a head that announces one entry before an empty batch is encoded differently by the two |
| `Frames.JoinedSlices` | src/protocol/codec/encode/vectored.rs:33-176 | for any group the joined slices are the frame with that group |
| `Frames.FillEntries` | src/protocol/codec/encode/contiguous.rs:51-71 | the loop at a moving offset writes the entries and touches nothing after them |
| `Frames.CollectBatch` | src/protocol/codec/encode/vectored.rs:216-318 | the batch encoder's loops collect the specified slices or refuse a body too long |
| `Frames.EchoBack` | src/protocol/codec/wire.rs:115-124 | the read token survives the echo in a response's reserved bytes |

## Left out

- Whole-run safety with snapshots, compaction or membership changes: the active configuration is not rebuilt from the log, so runs keep the voters fixed and logs whole; joint consensus is treated through quorum intersection and local invariants.
- Failed saves: a failed save inside a step-down returns with the term changed and the role not; the model assumes saves succeed.
- NodeLog.Log.ApplyAppend: takes batches of consecutive indexes that land in or right after the stored range, because the contiguity check stops at the first missing or conflicting entry and storage promises nothing for a batch with gaps or below a compacted prefix.
- NodeLog.Log.ApplyAppendSeeded: the same, for payload blocks of the declared total length, which decoding guarantees.
- RaftNode.Raft.HandleAppend: takes batches of consecutive indexes, and a log that reaches back to index 1.
- Arena.LogMetadataArena.Append: takes indexes below the largest 64-bit value, where saturation would make two indexes one; the stored log and proposals keep below it too.
- ApplyLoop.Applier.AdvanceCommit: takes as given that storage holds what consensus committed, which is what the whole-run theorems are about.
- ApplyLoop.Applier.Store: takes batches that meet the stored log or, where it is empty, the snapshot, like the merge it stands for, and that agree with what is committed, which is what the whole-run theorems are about.
- Membership.Group.Apply: takes entries whose lists have no duplicates, as leaders build them.
- The no-op branch of a read without a current-term commit, and the propose entry points: their module is not part of this model; appending, gathering and committing are.
- Pre-vote, leadership transfer, check-quorum timing, timers: clock-driven; a forced campaign is the campaign step.
- The follower's checks before a chunk is looked at (members only, the leader's term) and the progress the leader records after a transfer: easy members.
- Races on the demultiplexer's counter and lock: its operations are taken one at a time.
- The lock-free slot arena, capacity docks, the dispatch layer, metrics, configuration defaults, the transport itself: no protocol meaning or easy members.
- `PeerMap` is taken as a finite map.
- The pool's buffers are counted, not modelled as memory; frames are byte sequences.
