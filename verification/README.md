# A model of a Raft-replicated key/value store

This project models the consensus core, the write-ahead log and the state machine of a
replicated key/value store written in Rust, and proves what they guarantee together: from
the bytes of a log file after a crash, through one node's handlers, to the safety of every
run of a cluster.

`dafny verify dfyconfig.toml` checks everything.

## Layers

- **Bytes to records.** `Record.dfy` frames records as the program does (checksum, length,
  payload, little-endian) and reads them back through a reader that may split and interrupt
  its reads. `Recovery.dfy` says what recovery makes of an arbitrary file. `Segment.dfy` is
  the segment: a file, a write buffer, and the recovery scan.
- **Records to one log.** `SegmentView.dfy` and `Log.dfy`: a chain of segments refines one
  indexed sequence under append with rotation, sync, truncation at both ends, and reopening.
  `TornCut.dfy` says what a crash inside a truncation loses.
- **One node.** `Node.dfy` gives every handler of the Raft core as a function on values.
  `RaftCore.dfy` is the object with its fields, loops and log behind it; each method computes
  the function of the same name and keeps memory and log coupled (`Mirror.dfy`).
  `Restart.dfy` starts a node from its disk, after a clean stop, a torn append, or an
  AppendEntries cut off in the middle.
  `HandlerRules.dfy` and `LeaderRules.dfy` decide each handler outright; `Splicing.dfy`,
  `Compaction.dfy` and `Backoff.dfy` hold what is true of single nodes and of a leader with one
  follower.
- **The cluster.** `Cluster.dfy` is a transition system built from those handlers: timeouts,
  deliveries from a set of messages that only grows, proposals, sends, applying with
  snapshots and compaction, restarts, and crashes in the middle of storing entries. The
  files from `Invariant.dfy` to `Safety.dfy` prove its invariant and `Theorems.dfy` and
  `History.dfy` what it keeps safe. `Elections.dfy`, `Convergence.dfy` and `Progress.dfy` prove
  what can always still be done: elect, bring up to date, commit. `Scenario.dfy` is a run in
  which a leader compacts past a peer. `Driver.dfy` closes the circle: the driver's compound steps on a
  node's objects do what the cluster steps do.
- **The state machine.** `StateMachine.dfy` on values, `Store.dfy` as objects with snapshot
  files.

The handlers follow Figure 2 of "In Search of an Understandable Consensus Algorithm"
(Ongaro and Ousterhout, extended version); the program differs from it in bounding a
follower's commit index by its own last log index. `Theorems.FollowerCommitCovered` shows this
to be safe as long as a leader ships its whole tail, that is, has not compacted past the peer.
`Theorems.SafeSendIff` says exactly when it is safe otherwise, and `Scenario.StaleCommit` is a
run that ends in a message for which it is not.

## Assumptions

- Each handler, and each critical section of the driver, is one atomic step, except that
  storing received entries may be cut short by a crash. A leader that crashes before it syncs
  an entry needs no step of its own: the entry is lost, as in a restart, or kept, as in a
  proposal followed by one. A completed write to the hard state or a snapshot is durable, and
  so are synced log records.
- A leader sends only while it leads, and only to a peer whose next entry it still holds
  (`Theorems.SendGuardExact` says what that excludes).
- The entry serialiser and the checksum are parameters. An entry can be stored when its
  encoding fits one record and decodes to it (`Mirror.Codec.Stores`); nothing is assumed of
  the checksum.
- Terms, indices and lengths are natural numbers; the length field is four bytes.
- Votes are counted as the set of peers that granted one, since the network of the model may
  deliver a reply twice; the driver's counter is tied to that set in `Driver.CountVote`.
- Log files are given in the order of their base indices. Calls of the operating system
  succeed, except that reads may be short or interrupted and old snapshot files may resist
  removal.

Where comments and code disagree the model follows the code: a record header is eight bytes
(src/wal/record.rs:2 says four), opening a log recovers every segment and not only the last
(src/wal/log.rs:35), and truncating a suffix lowers the last index (src/wal/log.rs:7 calls it
the highest ever appended).

## Model

| member | source | states |
|---|---|---|
| `Theorems.ElectionSafety` | src/raft/election.rs:59-122 | over every run, with loss, duplication, reordering, restarts and compaction: two nodes that lead in the same term, at any two moments, are the same node |
| `Theorems.LogsMatch` | src/raft/replication.rs:70-98 | log matching: any two logs at any two moments of a run that agree on the term at an index agree on every entry up to it |
| `Theorems.InFlightMatches` | src/raft/replication.rs:84-98 | a log and a message in flight that agree on the term at an index agree on every entry of the message up to it, so skipping an entry on its term alone never keeps another command |
| `Theorems.CheckMatches` | src/raft/replication.rs:75-80 | a log whose term at prev_log_index is the message's prev_log_term agrees up to there with the log of whoever leads in the message's term |
| `Theorems.LeadersHoldCommitted` | src/raft/election.rs:103-116 | leader completeness over runs: what any node ever had committed is in the log of every leader of a later term |
| `Theorems.StateMachineSafety` | src/raft/replication.rs:52-163 | two nodes, at any two moments of a run, hold the same entries up to the smaller of their commit indices |
| `Theorems.StoresAgree` | src/raft/mod.rs:477-508 | every store is the fold of its log up to the applied index, and stores that applied equally far are equal, across snapshots and restarts |
| `Theorems.IndicesOrdered` | src/raft/mod.rs:252-279 | snapshot index <= last applied <= commit index <= last log index in every reachable state |
| `Theorems.CommittedNeverLost` | src/raft/replication.rs:84-107 | what a node had committed at one moment is in its log at every later moment of the run, crashes in the middle of receiving entries included |
| `Theorems.StepKeepsCommitted` | src/raft/replication.rs:104-163 | every step keeps a committed prefix, never lowers a term and, unless it restarts the node, never lowers its commit index |
| `Theorems.OtherSteps` | src/raft/mod.rs:364-475 | apart from receiving AppendEntries, or crashing while at it, no step shortens or rewrites any log |
| `Theorems.FollowerCommitCovered` | src/raft/replication.rs:104-107 | every message from a leader that has not compacted past the receiver has leader_commit at most prev_log_index plus its length; on acceptance the commit index becomes the larger of the two commit indices, the bound by the follower's own last index never decides, and up to the end of the message the logs agree |
| `Theorems.NeverBlocked` | src/raft/replication.rs:12-19 | in every reachable state every message in flight is contiguous and can be delivered or be crashed on, and a leader that has not compacted can send to every peer |
| `Theorems.SendGuardExact` | src/raft/replication.rs:31-49 | in every reachable state the guard on sending holds back exactly the messages that have a gap or carry a commit index they do not cover |
| `Theorems.SafeSendIff` | src/raft/replication.rs:72-107 | in every reachable state, a contiguous message sent without any guard leaves leader and peer with the same entries up to the smaller commit index if and only if the peer's next entry is still held, or the message is refused, moves no commit index, or moves it to an entry whose term the leader has there too |
| `Theorems.NeverDemotesLeader` | src/raft/replication.rs:62-68 | an AppendEntries of the receiver's own term never finds the receiver leading |
| `Theorems.MatchIsStored` | src/raft/replication.rs:127-130 | while the peer is still in the leader's term it holds as much of the leader's log as the match index says |
| `RunHistory.MatchWasStored` | src/raft/replication.rs:127-130 | the match index is a true lower bound on what the peer acknowledged in the leader's term, wherever the peer is now: at some earlier moment the peer was in that term and held that much of the leader's log |
| `RunHistory.AckMoment` | src/raft/replication.rs:100-113 | every acknowledgement was made at some moment of the run, by a node in that term whose log held what it acknowledged |
| `RunHistory.LateMessageIgnored` | src/raft/replication.rs:84-98 | once a node has accepted a message of a term, any message of that term that reaches no further leaves its log unchanged, in whatever order and however late it arrives |
| `RunHistory.BatchesAreTheLog` | src/raft/mod.rs:252-265 | over any stretch of a run without a restart of the node, the batches handed out concatenate to exactly the log between the old and the new applied index |
| `CrashSteps.TornServer` | src/raft/replication.rs:84-102 | a crash at any point of storing a message leaves the log untouched or as a prefix of the leader's that keeps all the two had in common, and keeps everything the invariant says of the node |
| `Theorems.CrashKeepsCommitted` | src/raft/replication.rs:84-102 | such a crash, with the restart that follows, loses no committed entry and lowers no term |
| `Elections.StaleLeaderDeposed` | src/raft/mod.rs:451-455 | from every reachable state, delivering a message of an older term and then its answer puts the sender into the receiver's term, as a follower, unless it had already moved on |
| `Elections.VoteGrantedIff` | src/raft/election.rs:90-122 | over every run, a request in flight gets the vote if and only if it is not of an older term, the voter has not voted for another in that term, and the log the candidate campaigned with is at least as recent as the voter's, by last term and then length |
| `Elections.CanWin` | src/raft/mod.rs:363-418 | from every reachable state, a node whose term and log are not behind those of more than half of the cluster can be elected in the next term by its timeout and one request and one reply for each of the others |
| `Elections.LoneNodeNeverLeads` | src/raft/mod.rs:377-385 | in a cluster of one nobody ever leads, because votes are only counted when a reply comes in |
| `Progress.CommitNeverBehind` | src/raft/replication.rs:147-163 | in every reachable state, an entry of the leader's term that it knows more than half of the cluster to hold is committed |
| `Progress.CanCommit` | src/raft/replication.rs:118-163 | from every reachable state, a leader that has not compacted, with more than half of the cluster in no later term, can commit its whole log within three steps for each of them and each index |
| `Progress.CanSpread` | src/raft/replication.rs:104-107 | and any of those nodes can then hold the whole log as committed and have applied it to its table |
| `Progress.OwnEntryLast` | src/raft/mod.rs:406-414 | in every reachable state the last entry of a leader is of its own term |
| `Steps.VoteCounts` | src/raft/mod.rs:404-416 | a vote for a candidate wins the election if and only if more than half of the cluster has then voted for it |
| `Steps.NewerTermDeposes` | src/raft/mod.rs:395-399 | a reply of a newer term makes its receiver, leader or candidate, a follower of that term without a vote or a leader, and changes nothing else |
| `Steps.OtherRepliesKeepTerm` | src/raft/mod.rs:451-458 | any other reply leaves term and vote alone, and a leader leading |
| `Safety.StepInv` | src/raft/mod.rs:364-475 | every step of the transition system, crashes in the middle of receiving entries included, keeps the invariant |
| `Safety.RunInv` | src/raft/mod.rs:364-475 | the invariant holds in every state of every run |
| `Completeness.LogMatching` | src/raft/replication.rs:70-98 | two logs rooted in the recorded leader logs that share a term at an index share everything up to it |
| `Completeness.RecentLogHolds` | src/raft/election.rs:103-110 | a candidate log that passes the (term, index) comparison against a voter holding a committed prefix holds that prefix too |
| `Completeness.LeaderCompleteness` | src/raft/election.rs:103-116 | an entry committed in one term is in the log every later election was won with, by induction on the term through the voter two quorums share |
| `Completeness.CommitsAgree` | src/raft/replication.rs:147-163 | two committed prefixes agree as far as both reach |
| `FollowerSteps.SpliceIsMerge` | src/raft/replication.rs:84-98 | spliced into a log that matches the leader's, a message leaves either the old log, if it already held everything sent, or exactly the leader's log up to the end of the message |
| `LocalSteps.AppliedServer` | src/raft/mod.rs:477-503 | applying a batch, snapshotting and compacting keeps everything the invariant says of the node and leaves its whole log unchanged |
| `LocalSteps.RestartedServer` | src/raft/mod.rs:83-125 | a restart keeps everything the invariant says of the node and leaves its whole log unchanged |
| `Convergence.ClusterCatchUp` | src/raft/replication.rs:118-143 | from every reachable state, a leader that has not compacted brings any other node of no later term up to date: a run of at most three times next_index further steps ends with the same leader and log, the node's log starting with all of it, entry by entry, match_index at its end and the node committed as far as the leader was; all others, and what the leader knows of them, are untouched |
| `Convergence.ReachableSharesDown` | src/raft/replication.rs:72-80 | the log-matching condition under which back-off converges holds between a leader and any node in every reachable state |
| `Backoff.RejectedRound` | src/raft/replication.rs:132-142 | a rejected round changes neither log and strictly lowers next_index, to the follower's conflict_index; it cannot happen at next_index 1 |
| `Backoff.AcceptedRound` | src/raft/replication.rs:127-131 | an accepted round sets match and next index to the leader's log end, stores every entry sent and leaves what lies below untouched |
| `Backoff.CatchUpExact` | src/raft/replication.rs:118-143 | repeating rounds ends, with match index at the leader's last index; the follower then holds the leader's log by terms if and only if it held the part below the meeting point, which is read off the two logs beforehand |
| `Backoff.Greatest` | src/raft/replication.rs:72-80 | the meeting point is the greatest next index up to the leader's at which the follower's log reaches the check and its term there is absent or equal |
| `Backoff.AnswerIff` | src/raft/replication.rs:72-80 | a message from a next index is accepted exactly when the follower's log reaches the check and its term there is absent or equal |
| `Backoff.CatchUpConverges` | src/raft/replication.rs:118-143 | under log matching the exchange takes at most next_index rounds and leaves the leader's whole log, by terms, in the follower's |
| `Backoff.MatchingNeeded` | src/raft/replication.rs:72-80 | a concrete follower for which, without log matching, the exchange ends too early |
| `LeaderRules.BuildContiguousIff` | src/raft/replication.rs:31-49 | a message is contiguous from prev_log_index + 1 if and only if the leader has no entries, has not compacted, or still holds the peer's next entry |
| `LeaderRules.SendIsTail` | src/raft/replication.rs:31-49 | to a peer whose next entry is still held, a message is the log from there on, behind the true term of the entry in front, under the term, name and commit index of the leader |
| `LeaderRules.CommitCoveredIff` | src/raft/replication.rs:31-49 | a message covers the commit index it carries if and only if the peer's next entry is still held or the leader has at least as many uncommitted entries as the check lies behind its snapshot |
| `LeaderRules.SoundSendIff` | src/raft/replication.rs:31-49 | a message is contiguous and covers its commit index if and only if the peer's next entry is still held |
| `Scenario.UncoveredCommit` | src/raft/replication.rs:104-107 | a run of three nodes and three terms in which a compacted leader has a contiguous message that does not cover the commit index it carries |
| `Scenario.CompactedGap` | src/raft/mod.rs:207-219 | one proposal later, its message to that peer has a gap |
| `Scenario.StaleCommit` | src/raft/replication.rs:78-107 | at the end of that run the message fails this condition: the receiver would commit its own second entry, where the leader has committed another |
| `LeaderRules.CommitRule` | src/raft/replication.rs:147-163 | the commit index moves exactly when the greatest index a quorum has reached lies above it and is of the current term; it moves there, never back, and nothing else changes |
| `HandlerRules.CampaignRule` | src/raft/election.rs:59-74 | a campaign is the next term, a vote for oneself, and a request with index and term of the last entry |
| `HandlerRules.OfficeRule` | src/raft/election.rs:77-87 | a new leader starts exactly its peers right behind its own log with nothing acknowledged |
| `HandlerRules.VoteRule` | src/raft/election.rs:90-122 | the exact condition of a vote in terms of terms, the vote cast and the end of the two logs; the term answered; and everything that changes |
| `HandlerRules.AppendAnswer` | src/raft/replication.rs:52-114 | the answer carries the newer of the two terms, succeeds if and only if the message is not older and passes both halves of the check, and hints at the end of the log or at the check |
| `HandlerRules.AppendEffect` | src/raft/replication.rs:52-114 | an older message changes nothing; any other is followed, forgets the vote only with its term, and moves log and commit index only on success, after which every entry sent is there |
| `HandlerRules.ProposeRule` | src/raft/mod.rs:222-233 | a command is taken by a leader and nobody else, as the next entry of its term |
| `HandlerRules.ReplyRule` | src/raft/replication.rs:118-143 | a reply moves the two indices of its sender and, on success, the commit index; every other peer's indices and everything else stay |
| `LeaderRules.BatchFeedsStore` | src/raft/mod.rs:252-265 | one batch is exactly the log from the applied to the commit index, asking again gives nothing, and applying it takes a table that folds the applied prefix to one that folds the committed prefix |
| `Quorum.SortedPick` | src/raft/replication.rs:156-158 | position quorum - 1 of any descending rearrangement is the greatest value at least a quorum has reached, and the only such value |
| `Quorum.MajoritiesMeet` | src/raft/mod.rs:158-160 | two majorities of one membership share a node |
| `Quorum.MajorityIff` | src/raft/mod.rs:157-160 | a count is a quorum if and only if it is more than half of the cluster |
| `ReplicationSteps.QuorumIsMajority` | src/raft/replication.rs:147-158 | the commit rule counts an index as reached by a quorum if and only if more than half of the cluster, the leader included, is known to hold it |
| `Sorting.SortDescending` | src/raft/replication.rs:156-156 | the sort yields a descending rearrangement |
| `Splicing.SpliceSnoc` | src/raft/replication.rs:84-98 | one more entry of the message is one more iteration of the loop; once something was appended, later entries are never found conflicting |
| `Splicing.SpliceReaches` | src/raft/replication.rs:84-98 | the splice leaves the log alone when every entry is present, and otherwise is the old log up to the first missing entry followed by the rest of the message |
| `Splicing.SpliceUnchangedIff` | src/raft/replication.rs:84-98 | the splice changes nothing if and only if every entry is already present by term or below the snapshot |
| `Splicing.SpliceStores` | src/raft/replication.rs:84-98 | after the splice every entry of the message is present |
| `Splicing.RedeliveryChangesNothing` | src/raft/replication.rs:84-98 | splicing any part of a message in again changes nothing |
| `Splicing.NeverGapsIff` | src/raft/replication.rs:175-180 | for dense entries the assertion that every append extends the log by one holds throughout the loop if and only if the first entry leaves no gap |
| `Splicing.DenseAnywayIff` | src/raft/replication.rs:84-98 | with the assertion compiled out, the loop leaves a dense log if and only if the first entry leaves no gap; it is then the splice, and otherwise the whole message lands behind the log |
| `Splicing.TornSpliceIsTornAppend` | src/raft/replication.rs:84-102 | what a crash leaves of the splice is the truncated log and a prefix of the entries that were being appended |
| `Compaction.CompactInvisibleIff` | src/raft/mod.rs:165-219 | compacting inside the log preserves last index, last term, and term_at, entry_at and entries_from above the snapshot if and only if the snapshot carries the true term |
| `Compaction.VoteUnaffected` | src/raft/election.rs:90-122 | compaction changes no vote and commutes with voting |
| `Compaction.SendUnaffected` | src/raft/replication.rs:31-49 | a peer whose next entry is still held is sent the same message after compaction |
| `Compaction.CommitUnaffected` | src/raft/replication.rs:147-163 | compaction below the commit index commutes with the commit rule |
| `Compaction.ApplyUnaffected` | src/raft/mod.rs:252-265 | compaction below the applied index commutes with take_committed and changes no batch |
| `Compaction.AppendUnaffected` | src/raft/replication.rs:52-114 | a message checked at or above the snapshot gets the same reply after compaction and leaves the same log, compacted |
| `Compaction.CompactTwice` | src/raft/mod.rs:268-279 | compacting twice is compacting once at the later snapshot |
| `RaftCores.RaftCore.constructor` | src/raft/mod.rs:104-123 | a started node is a follower with commit and applied at the snapshot and empty leader state |
| `RaftCores.RaftCore.BecomeFollower` | src/raft/election.rs:45-55 | refines the step to follower, with a newer term durable before it returns |
| `RaftCores.RaftCore.BecomeCandidate` | src/raft/election.rs:59-74 | refines the start of a campaign; term and own vote are durable before the request exists |
| `RaftCores.RaftCore.BecomeLeader` | src/raft/election.rs:77-87 | the loop over peers sets next to the log end plus one and match to zero for exactly the peers |
| `RaftCores.RaftCore.HandleRequestVote` | src/raft/election.rs:90-122 | refines the vote decision; the vote is durable before the reply exists |
| `RaftCores.RaftCore.AppendCommand` | src/raft/mod.rs:222-233 | appends one entry in memory and in the log at the same index, or errors and changes nothing when not leading |
| `RaftCores.RaftCore.Sync` | src/raft/mod.rs:236-238 | leaves nothing buffered and changes neither memory nor contents |
| `RaftCores.RaftCore.BuildAppendEntries` | src/raft/replication.rs:31-49 | to a peer whose next entry is still held: the check is the entry in front with its true term, and the entries are the rest of the log, so that what is held in front and what is sent make up the log |
| `RaftCores.RaftCore.OnAppendEntriesReply` | src/raft/replication.rs:118-143 | refines the bookkeeping function, including the back-off and the commit rule |
| `RaftCores.RaftCore.AdvanceCommitIndex` | src/raft/replication.rs:147-163 | collecting, sorting and indexing computes the quorum index of the specification |
| `RaftCores.RaftCore.TakeCommitted` | src/raft/mod.rs:252-265 | the loop returns exactly the entries between applied and commit index and advances the applied index by their number |
| `RaftCores.RaftCore.TruncateFrom` | src/raft/replication.rs:168-172 | drops the same suffix in memory and log and cannot fail: it is only reached with nothing buffered and at or above the first index |
| `RaftCores.RaftCore.AppendReplicated` | src/raft/replication.rs:175-186 | extends memory and log by the entry at the same index |
| `RaftCores.RaftCore.SpliceEntry` | src/raft/replication.rs:84-98 | one iteration of the splice loop keeps memory and log coupled and computes one step of the splice |
| `RaftCores.RaftCore.SpliceEntries` | src/raft/replication.rs:84-98 | the loop computes the splice of the specification and keeps memory and log coupled, without ever failing |
| `RaftCores.RaftCore.HandleAppendEntries` | src/raft/replication.rs:52-114 | refines the handler on every message whose storing would not break the program's own assertion, gaps behind the check included: new state and reply are those of the specification, everything is durable before the reply, and no error is returned |
| `RaftCores.RaftCore.Compact` | src/raft/mod.rs:268-279 | drops the covered entries in memory and, in the log, whole leading segments as long as the snapshot covers them; the two still agree above the snapshot if and only if the snapshot lies inside the log |
| `RaftCores.RetainedIsPrefix` | src/raft/replication.rs:169-169 | on dense entries the retain below an index is a prefix cut at that index |
| `RaftCores.AboveIsSuffix` | src/raft/mod.rs:273-274 | on dense entries the retain above an index is the suffix behind it |
| `Mirror.LoadedIffMirrors` | src/raft/mod.rs:91-101 | a restart loads a list of entries exactly when the log records above the snapshot decode to it |
| `Mirror.TornEntries` | src/raft/mod.rs:91-101 | of entries whose records were only partly written, the restart loads exactly a prefix behind everything synced |
| `Mirror.MirrorAppend` | src/raft/replication.rs:182-184 | appending an entry and its record keeps memory and log in step |
| `Mirror.MirrorSuffix` | src/raft/replication.rs:168-172 | cutting entries and records at the same index keeps memory and log in step |
| `Mirror.MirrorCompact` | src/raft/mod.rs:272-277 | raising the snapshot keeps memory and log in step |
| `Mirror.MirrorPrefix` | src/raft/mod.rs:276-276 | dropping log records at or below the snapshot keeps memory and log in step |
| `Mirror.MirrorUnique` | src/raft/mod.rs:91-101 | the log determines the entries |
| `Restarting.Restore` | src/raft/mod.rs:83-125 | rebuilds the node from hard state, snapshot metadata and whatever the log reads back, linked or not, or reports a record that does not decode |
| `Restarting.Reboot` | src/raft/mod.rs:299-305 | killing a node between operations and restoring it, above its own or a newer snapshot, gives back hard state and entries with commit and applied at the snapshot, and memory and log coupled again |
| `Restarting.RestartAfterTornAppend` | src/raft/mod.rs:83-125 | after a crash in the middle of appending, opening never refuses and the restored entries are the synced ones followed by a prefix of those in flight |
| `Restarting.RestartAfterTornRotation` | src/raft/mod.rs:91-101 | when the entries in flight had begun a new segment, a prefix of what went to each file comes back, and the result is dense if and only if every byte of the first file was written or not even one record of the second |
| `Restarting.TornHole` | src/raft/mod.rs:91-101 | two entries over two segments, with nothing in the first file and all in the second, come back as the second entry alone |
| `Restarting.CutOffLoads` | src/raft/mod.rs:91-101 | whatever part of a message a cut-off splice left in one segment, at any byte, loads as the entries of the handler interrupted at some point |
| `Restarting.RebootCutOff` | src/raft/mod.rs:83-125 | opening the log and restoring the node from such a disk gives exactly the interrupted handler's node, restarted |
| `Driver.Bootstrap` | src/raft/mod.rs:299-316 | a node started on an empty disk is a server of the initial cluster |
| `Driver.StartCampaign` | src/raft/mod.rs:364-383 | starting a campaign does what the cluster step does and asks every peer |
| `Driver.ReceiveVoteRequest` | src/raft/election.rs:90-122 | answering a vote request does to the node, and answers, what the cluster step does |
| `Driver.Send` | src/raft/mod.rs:430-440 | the message built for a peer is the one the cluster step sends, wherever that step is allowed |
| `Driver.Receive` | src/raft/replication.rs:52-114 | receiving entries does to the node, and answers, what the cluster step does |
| `Driver.CountVote` | src/raft/mod.rs:394-416 | folding in a vote reply does to the node what the cluster step does to its server, vote count included |
| `Driver.TakeOffice` | src/raft/mod.rs:406-413 | winning is becoming leader, appending and syncing a no-op, and the commit rule |
| `Driver.RecordAnswer` | src/raft/mod.rs:451-459 | folding in an append reply, with its term and role guards, does what the cluster step does |
| `Driver.Propose` | src/raft/mod.rs:512-525 | a proposal does what the cluster step does, or errors and changes nothing when not leading |
| `Driver.ApplyBatch` | src/raft/mod.rs:487-491 | applying entry by entry is the fold of the batch |
| `Driver.SnapshotIfDue` | src/raft/mod.rs:493-502 | snapshots at the applied index with its term and compacts, exactly when due |
| `Driver.ApplyCommitted` | src/raft/mod.rs:477-503 | taking, applying, snapshotting and compacting on the objects does what the cluster step does |
| `Driver.Restart` | src/raft/mod.rs:299-305 | reopening store and core from disk does what the cluster restart does |
| `Driver.RestartCutOff` | src/raft/mod.rs:83-125 | killing the process while it receives entries and restarting it from what that left on disk gives the server of the cluster's crash step |
| `Record.LittleEndianUnique` | src/wal/record.rs:59-60 | four bytes are the encoding of the number they denote |
| `Record.FrameLayout` | src/wal/record.rs:28-46 | byte for byte: four bytes of the checksum of everything behind them, four of the length, lowest first, then the payload |
| `Record.ReadRule` | src/wal/record.rs:50-80 | byte for byte: a record is taken if and only if it is complete, at most 64 MiB long and carries the checksum of its length and payload; otherwise end of file, torn or corrupt, with the bytes consumed |
| `Record.DamageRead` | src/wal/record.rs:72-77 | a payload changed under its frame reads as corrupt whenever the change shows in the checksum |
| `Record.FrameReads` | src/wal/record.rs:28-80 | a frame followed by any bytes reads back as its payload and consumes exactly the frame, for every checksum function |
| `Record.ReadIsFrame` | src/wal/record.rs:50-80 | whatever reads as a payload is byte for byte the frame of that payload |
| `Record.CutFrameReads` | src/wal/record.rs:50-80 | a frame cut at any byte is a torn record or the end of the file, never corrupt |
| `Record.Fill` | src/wal/record.rs:84-95 | fills the buffer or reaches the end of the data, whatever sizes and interruptions the reads come in |
| `Record.ReadRecord` | src/wal/record.rs:50-80 | reading through the buffers computes the outcome and the bytes consumed of the specification, whatever sizes the reads come in |
| `Record.WriteRecord` | src/wal/record.rs:28-46 | appends exactly the frame behind what was written and buffered, and returns its length |
| `Recovery.FramesRoundTrip` | src/wal/segment.rs:58-113 | recovering the encoding of any records gives those records back |
| `Recovery.GoodIsFrames` | src/wal/segment.rs:98-103 | the part of a file recovery keeps is exactly the encoding of the records it found |
| `Recovery.CleanIffFrames` | src/wal/segment.rs:168-176 | a run of bytes parses cleanly if and only if it is the encoding of some records |
| `Recovery.WholeRecordsFit` | src/wal/segment.rs:62-64 | the number of whole records in a cut is the largest that fits |
| `Recovery.WholeRecordsAll` | src/wal/segment.rs:49-113 | all records fit in a cut exactly when nothing is cut off, and none exactly when not even the first does |
| `Recovery.CutRecovers` | src/wal/segment.rs:49-113 | for every list of records, checksum and cut: recovery never reports corruption and keeps exactly the records wholly before the cut |
| `Recovery.SyncedSurvive` | src/wal/segment.rs:49-113 | synced records followed by any bytes: recovery refuses or keeps them all as a prefix, leaves exactly the encoding of what it kept, and recovering that changes nothing |
| `Recovery.TornAppendRecovers` | src/wal/segment.rs:49-113 | synced records followed by a torn write recover to all of the former and a prefix of the latter, which is all of it if and only if nothing was cut off |
| `Recovery.RefusesIffCorruptInside` | src/wal/segment.rs:77-95 | recovery refuses a file if and only if it is good records, one corrupt frame, then the encoding of one or more records |
| `Recovery.DamageOutcome` | src/wal/segment.rs:77-95 | a record damaged so that its checksum changes: with records behind it the file is refused, as the last one it is cut off and all before it are kept |
| `Segments.RestParsesCleanly` | src/wal/segment.rs:168-176 | the loop decides whether the rest of the file is a clean run of records |
| `Segments.RecoverSegment` | src/wal/segment.rs:49-113 | the scan loop refuses or keeps exactly what the specification says and truncates the file to the encoding of the records kept |
| `Segments.SegmentIter.Next` | src/wal/segment.rs:189-208 | yields the next record, the end, or an error after which it stays done |
| `Segments.Segment.Append` | src/wal/segment.rs:116-121 | file and buffer together hold the encoding of the records and one more; nothing that reached the file changes |
| `Segments.Segment.Sync` | src/wal/segment.rs:124-128 | the file becomes the encoding of all records |
| `WalLog.Open` | src/wal/log.rs:37-71 | opens if and only if every segment recovers, and then holds exactly the recovered records, or one empty segment at index 1 |
| `WalLog.Log.Append` | src/wal/log.rs:77-88 | one more record at the next index, in a fresh segment if and only if the active one holds a record and has reached the size limit |
| `WalLog.Log.Rotate` | src/wal/log.rs:79-83 | a fresh segment at the next index leaves the contents unchanged |
| `WalLog.Log.Sync` | src/wal/log.rs:91-96 | nothing stays buffered and the contents are unchanged |
| `WalLog.Log.ReadAll` | src/wal/log.rs:100-110 | the answer is every record with the index its segment gives it if and only if nothing is buffered |
| `WalLog.Log.WholeNumbered` | src/wal/log.rs:100-110 | for linked segments those indices are the ones of the whole log, from first_index on |
| `WalLog.Log.TruncatePrefix` | src/wal/log.rs:115-128 | keeps every index from up_to_index on, first_index ends between its old value and the larger of that and up_to_index, and no further whole segment could have been dropped |
| `WalLog.Log.TruncateSuffix` | src/wal/log.rs:133-181 | keeps exactly the indices up to keep_last if and only if the file of the segment the cut falls into holds all it must keep, which a synced log always does; nothing changes when keep_last is past the end or below the compacted prefix, the latter with an error |
| `TornCut.TornCutKeepsIff` | src/wal/log.rs:144-178 | a crash at any point of truncating a suffix: opening never refuses, and every record up to the cut is still there if and only if the cut segment was not reached, had nothing to keep, or its replacement is complete |
| `TornCut.TornCutLoses` | src/wal/log.rs:144-178 | one segment of two synced records cut after the first: a crash after the removal of its file brings back an empty log |
| `WalLog.Log.SyncedOnDisk` | src/wal/log.rs:91-96 | the files of a synced log are the encodings of its segments |
| `WalLog.ReopenSynced` | src/wal/log.rs:37-71 | reopening a synced log gives the same segments back |
| `WalLog.ReopenWithTail` | src/wal/log.rs:37-71 | with any bytes behind the last synced file, opening refuses or keeps every synced record at its index |
| `WalLog.ReopenAfterTornAppend` | src/wal/log.rs:37-71 | after a torn append, opening never refuses, keeps every synced record and exactly a prefix of the appended ones |
| `WalLog.ReopenAfterTornRotation` | src/wal/log.rs:37-71 | after a torn append that left a second segment, opening never refuses, keeps a prefix of what went to each file, and the segments are linked if and only if the first file is complete, byte for byte; nothing of the second comes back if and only if it ends before its first record does |
| `SegmentView.DropBelowKeeps` | src/wal/log.rs:115-128 | dropping leading segments below an index removes exactly a prefix of the records and keeps the rest linked |
| `SegmentView.CutKeeps` | src/wal/log.rs:146-179 | cutting the straddling segment leaves exactly the records up to the cut, still linked |
| `StateMachine.FoldIsLastWrite` | src/store/memtable.rs:48-56 | a key is bound to a value in the fold of a log if and only if the last command that touches the key put that value |
| `StateMachine.ReplayCatchesUp` | src/store/memtable.rs:38-58 | a table holding the first k entries that is fed everything from any earlier position on ends as the fold of the whole log |
| `StateMachine.ApplyAllConcat` | src/store/memtable.rs:38-58 | applying two batches is applying their concatenation |
| `Stores.MemTable.Apply` | src/store/memtable.rs:38-58 | applies one command, or nothing when the index was already applied |
| `Stores.LoadLatest` | src/store/snapshot.rs:74-82 | finds the file with the greatest index |
| `Stores.WriteSnapshot` | src/store/snapshot.rs:38-71 | the new file is there, and of the others exactly those whose removal failed, unchanged |
| `Stores.Store.constructor` | src/store/mod.rs:28-40 | opening loads table and metadata of the newest file by name, whatever its metadata says, or starts empty; when names and metadata agree the store is the specified one |
| `Stores.Store.Apply` | src/store/mod.rs:43-45 | applies to the table and leaves snapshots alone |
| `Stores.Store.ShouldSnapshot` | src/store/mod.rs:73-77 | due exactly when at least the threshold has been applied since the last snapshot |
| `Stores.Store.Snapshot` | src/store/mod.rs:82-90 | the newest file on disk is the table at the applied index, even when old files could not be removed |
| `Stores.Reopen` | src/store/mod.rs:28-40 | reopening after any run gives the store as of its last snapshot |

## Left out

- The network layer, protobuf conversion, client pool, command line, configuration and benches.
- The interleavings of the asynchronous driver: the leader check and the building of a message, and taking and applying a batch, are separate critical sections in the program (src/raft/mod.rs:342-352, src/raft/mod.rs:477-491) and single steps here.
- Runs in which a leader that has compacted past a peer still sends to it: the program has no InstallSnapshot, and safety fails there (`Scenario.StaleCommit`). `Theorems.SafeSendIff` is exact for one such message.
- That an election or a commit does happen, election timers and the leader lease, which rest on clocks; `Elections.CanWin` and `Progress.CanCommit` prove that it can from every reachable state.
- Linearizable reads: the read path does not go through the core.
- Crashes in the middle of `truncate_suffix` in runs of the cluster: it removes the straddling file before it writes the replacement, so committed entries can be lost. `TornCut.TornCutKeepsIff` says exactly when.
- Crashes in runs of the cluster that tear entries over two segments; `Restarting.RestartAfterTornRotation` states when the node comes back sound.
- File names, directory listing, fsync and rename, the entry encoding and the checksum algorithm.
- Overflow of 64-bit terms and indices, and failures of the operating system other than short and interrupted reads.
- CrashSteps.TornServer: covers crashes while entries are appended to one segment; those inside a truncation can lose entries and those across a rotation can leave a hole, exactly where `TornCut.TornCutKeepsIff` and `Restarting.RestartAfterTornRotation` say.
- Theorems.CrashKeepsCommitted: as CrashSteps.TornServer.
- Theorems.MatchIsStored: speaks of a peer still in the leader's term; `RunHistory.MatchWasStored` has no such condition.
- Theorems.FollowerCommitCovered: excludes messages from below a leader's snapshot, for which it is false (`Scenario.UncoveredCommit`).
- Theorems.NeverBlocked: excludes leaders that have compacted, whose sends below the snapshot the guard does hold back.
- Elections.CanWin: asks for at least one other voter; in a cluster of one it is false (`Elections.LoneNodeNeverLeads`).
- Progress.CanCommit: covers leaders that have not compacted, as Convergence.ClusterCatchUp.
- Convergence.ClusterCatchUp: covers leaders that have not compacted, because below the snapshot the program cannot bring a follower up to date.
- Restarting.RestartAfterTornAppend: covers entries in flight in one segment; `Restarting.RestartAfterTornRotation` covers two.
- RaftCores.RaftCore.HandleAppendEntries: asks that every append extend the log by one, which the program asserts and `Splicing.NeverGapsIff` makes exact (`Splicing.DenseAnywayIff` covers builds without the assertion), and that the serialiser can store the entries, which is an assumption about it. `Theorems.NeverBlocked` proves the former, not the latter, of every message sent in a run.
