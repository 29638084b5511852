/**
  What the leader's rules decide, for every node state.
*/
module LeaderRules {
  import opened Types
  import opened Quorum
  import opened RaftNode
  import opened StateMachine

  // To a peer whose next entry is still held, a message is the log from there on, behind the
  // true term of the entry in front.
  lemma SendIsTail(n: Node, peer: NodeId)
    requires n.WellFormed() && n.BaseIndex() <= n.NextFor(peer) <= n.LastLogIndex() + 1
    ensures
      var args, next := n.BuildAppendEntries(peer), n.NextFor(peer);
      && args.term == n.hard.currentTerm && args.leaderId == n.id && args.leaderCommit == n.commitIndex
      && args.prevLogIndex == next - 1 && n.TermAt(next - 1) == Some(args.prevLogTerm)
      && Contiguous(args.entries, next) && args.LastSent() == n.LastLogIndex()
      && next - n.BaseIndex() <= |n.entries| && n.entries[..next - n.BaseIndex()] + args.entries == n.entries
  {
    assert n.LastLogIndex() == n.snapshot.lastIncludedIndex + |n.entries|;
    hide Contiguous, Node.LastLogIndex;
    var d := n.NextFor(peer) - n.BaseIndex();
    TailContiguous(n.entries, n.BaseIndex(), d);
    assert n.entries == n.entries[..d] + n.entries[d..];
  }

  lemma TailContiguous(es: Entries, first: LogIndex, d: nat)
    requires Contiguous(es, first) && d <= |es|
    ensures Contiguous(es[d..], first + d)
  {
  }

  // A message is contiguous from its check exactly when the peer does not need entries the
  // leader has compacted away.
  lemma BuildContiguousIff(n: Node, peer: NodeId)
    requires n.WellFormed()
    ensures
      var args := n.BuildAppendEntries(peer);
      Contiguous(args.entries, args.prevLogIndex + 1)
      <==> n.entries == [] || n.NextFor(peer) >= n.BaseIndex() || n.BaseIndex() == 1
  {
    var next, args := n.NextFor(peer), n.BuildAppendEntries(peer);
    if next < n.BaseIndex() && n.entries != [] {
      assert args.entries[0].index == n.BaseIndex();
    }
  }

  // The commit index a message carries lies within the message exactly when the leader still
  // holds the peer's next entry, or when it has at least as many uncommitted entries as the
  // check lies behind its snapshot.
  lemma CommitCoveredIff(n: Node, peer: NodeId)
    requires n.WellFormed() && n.commitIndex <= n.LastLogIndex() && n.NextFor(peer) <= n.LastLogIndex() + 1
    ensures
      var args, snap := n.BuildAppendEntries(peer), n.snapshot.lastIncludedIndex;
      args.leaderCommit <= args.LastSent()
      <==> n.NextFor(peer) >= n.BaseIndex() || n.commitIndex + (snap - args.prevLogIndex) <= n.LastLogIndex()
  {
    assert n.LastLogIndex() == n.snapshot.lastIncludedIndex + |n.entries|;
  }

  // A message is both contiguous and covers its commit index exactly when the leader still
  // holds the peer's next entry.
  lemma SoundSendIff(n: Node, peer: NodeId)
    requires n.WellFormed() && n.snapshot.lastIncludedIndex <= n.commitIndex <= n.LastLogIndex()
    requires 1 <= n.NextFor(peer) <= n.LastLogIndex() + 1
    ensures
      var args := n.BuildAppendEntries(peer);
      Contiguous(args.entries, args.prevLogIndex + 1) && args.leaderCommit <= args.LastSent()
      <==> n.NextFor(peer) >= n.BaseIndex()
  {
    BuildContiguousIff(n, peer);
    CommitCoveredIff(n, peer);
    assert n.LastLogIndex() == n.snapshot.lastIncludedIndex + |n.entries|;
    hide Contiguous;
  }

  // The commit rule: the commit index moves exactly when the greatest index a quorum has
  // reached lies above it and is of the current term; it moves there, and nothing else moves.
  lemma CommitRule(n: Node)
    ensures
      var n' := n.AdvanceCommitIndex();
      && n' == n.(commitIndex := n'.commitIndex) && n.commitIndex <= n'.commitIndex
      && forall v: LogIndex :: IsQuorumIndex(n.Matches(), n.Quorum(), v) ==>
           n'.commitIndex == if v > n.commitIndex && n.TermAt(v) == Some(n.hard.currentTerm) then v else n.commitIndex
  {
    var c := QuorumIndex(n.Matches(), n.Quorum());
    hide QuorumIndex;
    forall v: LogIndex | IsQuorumIndex(n.Matches(), n.Quorum(), v) ensures v == c {
      assert CountGE(n.Matches(), v) >= n.Quorum() && CountGE(n.Matches(), c) >= n.Quorum();
    }
  }

  // Each batch of committed entries starts right after what was applied and reaches the
  // commit index, asking again gives nothing, and a table that holds the log up to the
  // applied index holds it up to the commit index once the batch is applied.
  lemma BatchFeedsStore(n: Node, log: Entries)
    requires n.WellFormed() && Contiguous(log, 1)
    requires n.snapshot.lastIncludedIndex <= n.lastApplied <= n.commitIndex <= n.LastLogIndex()
    requires n.snapshot.lastIncludedIndex <= |log| && log[n.snapshot.lastIncludedIndex..] == n.entries
    ensures
      var (n', batch) := n.TakeCommitted();
      && n'.WellFormed() && n'.TakeCommitted() == (n', [])
      && n.commitIndex <= |log| && batch == log[n.lastApplied..n.commitIndex] && n'.lastApplied == n.commitIndex
      && ApplyAll(Table(Fold(log[..n.lastApplied]), n.lastApplied), batch)
         == Table(Fold(log[..n.commitIndex]), n.commitIndex)
  {
    hide Fold, ApplyAll;
    var k, upTo := n.lastApplied, log[..n.commitIndex];
    BatchIsSlice(n, log);
    hide Node.WellFormed, Node.LastLogIndex;
    assert upTo[..k] == log[..k] && upTo[k..] == log[k..n.commitIndex];
    ReplayCatchesUp(upTo, k, k);
  }

  lemma BatchIsSlice(n: Node, log: Entries)
    requires n.WellFormed()
    requires n.snapshot.lastIncludedIndex <= n.lastApplied <= n.commitIndex <= n.LastLogIndex()
    requires n.snapshot.lastIncludedIndex <= |log| && log[n.snapshot.lastIncludedIndex..] == n.entries
    ensures n.commitIndex <= |log| && n.Committed() == log[n.lastApplied..n.commitIndex]
  {
  }
}
