/**
  One node of the cluster as a value: the fields of the Raft core that the protocol
  reads, and every handler as a function from old state and message to new state and
  reply.

  The class in `RaftCore.dfy` implements these functions with loops over mutable
  fields and a write-ahead log; the cluster in `Cluster.dfy` is built from them.
*/
module RaftNode {
  import opened Types
  import opened Quorum

  datatype Node = Node(
    id: NodeId,
    peers: seq<NodeId>,
    hard: HardState,
    entries: Entries,      // every entry above the snapshot
    snapshot: SnapshotMeta,
    role: Role,
    commitIndex: LogIndex,
    lastApplied: LogIndex,
    leaderId: Option<NodeId>,
    nextIndex: map<NodeId, LogIndex>,
    matchIndex: map<NodeId, LogIndex>)
  {
    // Entries are dense above the snapshot.
    ghost predicate WellFormed() {
      Contiguous(entries, BaseIndex())
    }

    function Quorum(): nat {
      Majority(|peers| + 1)
    }

    // ---- log queries ----

    function BaseIndex(): LogIndex {
      snapshot.lastIncludedIndex + 1
    }

    function LastLogIndex(): LogIndex {
      if entries == [] then snapshot.lastIncludedIndex else entries[|entries| - 1].index
    }

    function LastLogTerm(): Term {
      if entries == [] then snapshot.lastIncludedTerm else entries[|entries| - 1].term
    }

    function TermAt(index: LogIndex): Option<Term> {
      if index == snapshot.lastIncludedIndex then Some(snapshot.lastIncludedTerm)
      else if index < BaseIndex() then None
      else if index - BaseIndex() < |entries| then Some(entries[index - BaseIndex()].term)
      else None
    }

    function EntryAt(index: LogIndex): Option<LogEntry> {
      if index < BaseIndex() then None
      else if index - BaseIndex() < |entries| then Some(entries[index - BaseIndex()])
      else None
    }

    function EntriesFrom(from: LogIndex): Entries {
      if from < BaseIndex() then entries
      else if from - BaseIndex() <= |entries| then entries[from - BaseIndex()..]
      else []
    }

    // ---- elections ----

    function BecomeFollower(term: Term, leader: Option<NodeId>): Node {
      var h := if term > hard.currentTerm then HardState(term, None) else hard;
      this.(hard := h, role := Follower, leaderId := leader)
    }

    function BecomeCandidate(): (Node, RequestVoteArgs) {
      var n := this.(role := Candidate,
                     hard := HardState(hard.currentTerm + 1, Some(id)),
                     leaderId := None);
      (n, RequestVoteArgs(n.hard.currentTerm, id, LastLogIndex(), LastLogTerm()))
    }

    function BecomeLeader(): Node {
      this.(role := Leader, leaderId := Some(id),
            nextIndex := map p | p in peers :: LastLogIndex() + 1,
            matchIndex := map p | p in peers :: 0)
    }

    // The candidate's last entry is at least as late as ours, by (term, index).
    predicate UpToDate(lastLogTerm: Term, lastLogIndex: LogIndex) {
      lastLogTerm > LastLogTerm()
      || (lastLogTerm == LastLogTerm() && lastLogIndex >= LastLogIndex())
    }

    function HandleRequestVote(args: RequestVoteArgs): (Node, RequestVoteReply) {
      if args.term < hard.currentTerm then
        (this, RequestVoteReply(hard.currentTerm, false))
      else
        var n := if args.term > hard.currentTerm then BecomeFollower(args.term, None) else this;
        var free := n.hard.votedFor == None || n.hard.votedFor == Some(args.candidateId);
        if n.UpToDate(args.lastLogTerm, args.lastLogIndex) && free then
          (n.(hard := HardState(n.hard.currentTerm, Some(args.candidateId))),
           RequestVoteReply(n.hard.currentTerm, true))
        else
          (n, RequestVoteReply(n.hard.currentTerm, false))
    }

    // ---- replication, leader side ----

    function NextFor(peer: NodeId): LogIndex {
      if peer in nextIndex then nextIndex[peer] else LastLogIndex() + 1
    }

    function BuildAppendEntries(peer: NodeId): AppendEntriesArgs {
      var next := NextFor(peer);
      var prev := Pred(next);
      AppendEntriesArgs(hard.currentTerm, id, prev,
                        TermAt(prev).GetOr(snapshot.lastIncludedTerm),
                        EntriesFrom(next), commitIndex)
    }

    function AppendCommand(command: Command): Result<Node> {
      if role != Leader then Err(RaftError)
      else
        var entry := LogEntry(hard.currentTerm, LastLogIndex() + 1, command);
        Ok(this.(entries := entries + [entry]))
    }

    function BackedOff(peer: NodeId, reply: AppendEntriesReply): LogIndex {
      var current := if peer in nextIndex then nextIndex[peer] else 1;
      var hint := if reply.conflictIndex > 0 then reply.conflictIndex else Pred(current);
      Max(Min(hint, Pred(current)), 1)
    }

    // A peer's reply folded into the bookkeeping, before the commit rule runs.
    function RecordReply(peer: NodeId, lastSent: LogIndex, reply: AppendEntriesReply): Node {
      if reply.success then
        this.(matchIndex := matchIndex[peer := lastSent], nextIndex := nextIndex[peer := lastSent + 1])
      else
        this.(nextIndex := nextIndex[peer := BackedOff(peer, reply)])
    }

    function OnAppendEntriesReply(peer: NodeId, lastSent: LogIndex, reply: AppendEntriesReply): Node {
      if role != Leader then this
      else if reply.success then RecordReply(peer, lastSent, reply).AdvanceCommitIndex()
      else RecordReply(peer, lastSent, reply)
    }

    function MatchOf(peer: NodeId): LogIndex {
      if peer in matchIndex then matchIndex[peer] else 0
    }

    function MatchesOf(ps: seq<NodeId>): seq<LogIndex> {
      seq(|ps|, k requires 0 <= k < |ps| => MatchOf(ps[k]))
    }

    // Every peer's match index, then our own log end.
    function Matches(): (ms: seq<LogIndex>)
      ensures |ms| == |peers| + 1
    {
      MatchesOf(peers) + [LastLogIndex()]
    }

    function AdvanceCommitIndex(): Node {
      var candidate := QuorumIndex(Matches(), Quorum());
      if candidate > commitIndex && TermAt(candidate) == Some(hard.currentTerm)
      then this.(commitIndex := candidate)
      else this
    }

    // ---- replication, follower side ----

    function Reject(conflictIndex: LogIndex): AppendEntriesReply {
      AppendEntriesReply(hard.currentTerm, false, conflictIndex)
    }

    // Recognise the sender as leader of its term.
    function Recognise(args: AppendEntriesArgs): Node {
      if args.term > hard.currentTerm then BecomeFollower(args.term, Some(args.leaderId))
      else this.(role := Follower, leaderId := Some(args.leaderId))
    }

    // The log-matching check; below the snapshot there is no term to compare.
    predicate PrevMatches(args: AppendEntriesArgs) {
      var local := TermAt(args.prevLogIndex);
      local.None? || local.value == args.prevLogTerm
    }

    // Both halves of the check: the log reaches the index, with that term.
    predicate Accepts(args: AppendEntriesArgs) {
      args.prevLogIndex <= LastLogIndex() && PrevMatches(args)
    }

    // What storing entries one by one demands: they are dense and leave no gap behind the log.
    ghost predicate Extends(args: AppendEntriesArgs) {
      Contiguous(args.entries, args.Start() + 1) && args.Start() <= LastLogIndex()
    }

    // The demand falls only on a message that gets as far as storing entries.
    ghost predicate CanHandle(args: AppendEntriesArgs) {
      WellFormed() && (args.term >= hard.currentTerm && Accepts(args) ==> Extends(args))
    }

    function Store(args: AppendEntriesArgs): Node
      requires WellFormed() && Extends(args)
    {
      var n := this.(entries := Splice(entries, snapshot.lastIncludedIndex, args.Start(), args.entries));
      if args.leaderCommit > n.commitIndex
      then n.(commitIndex := Min(args.leaderCommit, n.LastLogIndex()))
      else n
    }

    function HandleAppendEntries(args: AppendEntriesArgs): (Node, AppendEntriesReply)
      requires CanHandle(args)
    {
      if args.term < hard.currentTerm then (this, Reject(0))
      else
        var n := Recognise(args);
        if args.prevLogIndex > n.LastLogIndex() then (n, n.Reject(n.LastLogIndex() + 1))
        else if !n.PrevMatches(args) then (n, n.Reject(args.prevLogIndex))
        else
          var stored := n.Store(args);
          (stored, AppendEntriesReply(stored.hard.currentTerm, true, 0))
    }

    // What a crash leaves of the handler when only part of the entries reached the disk.
    function Interrupted(args: AppendEntriesArgs, k: nat): Node
      requires CanHandle(args) && k <= |args.entries| + 1
    {
      if args.term < hard.currentTerm then this
      else
        var n := Recognise(args);
        if !n.Accepts(args) then n
        else n.(entries := TornSplice(entries, snapshot.lastIncludedIndex, args.Start(), args.entries, k))
    }

    // ---- apply, compaction, restart ----

    function Committed(): Entries
      requires WellFormed()
    {
      var snap := snapshot.lastIncludedIndex;
      var upTo := Min(commitIndex, LastLogIndex());
      if snap <= lastApplied < upTo then entries[lastApplied - snap..upTo - snap] else []
    }

    function TakeCommitted(): (Node, Entries)
      requires WellFormed()
    {
      (this.(lastApplied := lastApplied + |Committed()|), Committed())
    }

    function Compact(meta: SnapshotMeta): Node {
      if meta.lastIncludedIndex <= snapshot.lastIncludedIndex then this
      else
        var dropped := Min(meta.lastIncludedIndex - snapshot.lastIncludedIndex, |entries|);
        this.(entries := entries[dropped..], snapshot := meta)
    }

    // What a restart above the snapshot `meta` rebuilds: the hard state and the log
    // survive, everything volatile is reset.
    function Restart(meta: SnapshotMeta): Node {
      Compact(meta).(role := Follower,
                     commitIndex := meta.lastIncludedIndex,
                     lastApplied := meta.lastIncludedIndex,
                     leaderId := None, nextIndex := map[], matchIndex := map[])
    }
  }

  // ---- the splice ----

  // The entry is already covered: below the snapshot, or present with the same term.
  predicate Present(entries: Entries, snap: LogIndex, e: LogEntry) {
    e.index <= snap
    || (e.index - snap - 1 < |entries| && entries[e.index - snap - 1].term == e.term)
  }

  // How many leading entries of `es` are already covered.
  function Covered(entries: Entries, snap: LogIndex, es: Entries): (k: nat)
    ensures k <= |es|
    ensures forall j :: 0 <= j < k ==> Present(entries, snap, es[j])
    ensures k < |es| ==> !Present(entries, snap, es[k])
  {
    if es == [] || !Present(entries, snap, es[0]) then 0
    else 1 + Covered(entries, snap, es[1..])
  }

  // The simple form of the splice: unchanged when every entry is already covered;
  // otherwise the log up to the first uncovered entry, then the rest of the message.
  function Splice(entries: Entries, snap: LogIndex, prev: LogIndex, es: Entries): (r: Entries)
    requires Contiguous(entries, snap + 1) && Contiguous(es, prev + 1)
    requires prev <= snap + |entries|
    ensures Contiguous(r, snap + 1)
    ensures snap + |r| >= prev + |es|
  {
    var k := Covered(entries, snap, es);
    if k == |es| then
      assert es != [] ==> Present(entries, snap, es[|es| - 1]);
      entries
    else
      assert k > 0 ==> Present(entries, snap, es[k - 1]);
      entries[..es[k].index - snap - 1] + es[k..]
  }

  // The splice cut off on the way: up to point `k` nothing has reached the disk yet, or the
  // conflicting tail is gone and the entries in front of `k - 1` have replaced it.
  function TornSplice(entries: Entries, snap: LogIndex, prev: LogIndex, es: Entries, k: nat): (r: Entries)
    requires Contiguous(entries, snap + 1) && Contiguous(es, prev + 1)
    requires prev <= snap + |entries| && k <= |es| + 1
    ensures Contiguous(r, snap + 1)
  {
    var c := Covered(entries, snap, es);
    if k <= c || c == |es| then entries
    else
      assert c > 0 ==> Present(entries, snap, es[c - 1]);
      entries[..es[c].index - snap - 1] + es[c..k - 1]
  }
}
