/**
  Compaction is invisible to the protocol: queries, votes, appends, commits and applies see
  the same log before and after, as long as they stay at or above the snapshot.
*/
module Compaction {
  import opened Types
  import opened Quorum
  import opened RaftNode
  import opened Splicing

  // A snapshot the node could take: above the last one, inside the log, with the right term.
  ghost predicate Takeable(n: Node, meta: SnapshotMeta) {
    && n.WellFormed()
    && n.snapshot.lastIncludedIndex < meta.lastIncludedIndex <= n.LastLogIndex()
    && n.TermAt(meta.lastIncludedIndex) == Some(meta.lastIncludedTerm)
  }

  // From the snapshot up, every query answers as before.
  ghost predicate SameAbove(n: Node, m: Node, from: LogIndex) {
    && n.LastLogIndex() == m.LastLogIndex() && n.LastLogTerm() == m.LastLogTerm()
    && (forall k: LogIndex :: k >= from ==> n.TermAt(k) == m.TermAt(k))
    && (forall k: LogIndex :: k > from ==> n.EntryAt(k) == m.EntryAt(k))
    && (forall k: LogIndex :: k > from ==> n.EntriesFrom(k) == m.EntriesFrom(k))
  }

  lemma LastIsEnd(n: Node)
    requires n.WellFormed()
    ensures n.LastLogIndex() == n.snapshot.lastIncludedIndex + |n.entries|
  {
  }

  lemma CompactForm(n: Node, meta: SnapshotMeta)
    requires n.WellFormed() && n.snapshot.lastIncludedIndex < meta.lastIncludedIndex <= n.LastLogIndex()
    ensures
      var d := meta.lastIncludedIndex - n.snapshot.lastIncludedIndex;
      d <= |n.entries| && n.Compact(meta) == n.(entries := n.entries[d..], snapshot := meta)
  {
  }

  // One index at a time.
  lemma CompactAt(n: Node, meta: SnapshotMeta, k: LogIndex)
    requires n.WellFormed() && n.snapshot.lastIncludedIndex < meta.lastIncludedIndex <= n.LastLogIndex()
    requires k > meta.lastIncludedIndex
    ensures
      var m := n.Compact(meta);
      n.TermAt(k) == m.TermAt(k) && n.EntryAt(k) == m.EntryAt(k) && n.EntriesFrom(k) == m.EntriesFrom(k)
  {
    var m, d := n.Compact(meta), meta.lastIncludedIndex - n.snapshot.lastIncludedIndex;
    assert m.entries == n.entries[d..];
    if k - m.BaseIndex() <= |m.entries| {
      assert n.entries[d..][k - m.BaseIndex()..] == n.entries[k - n.BaseIndex()..];
    }
  }

  lemma CompactEnds(n: Node, meta: SnapshotMeta)
    requires n.WellFormed() && n.snapshot.lastIncludedIndex < meta.lastIncludedIndex <= n.LastLogIndex()
    ensures
      var m := n.Compact(meta);
      && m.WellFormed() && m.LastLogIndex() == n.LastLogIndex()
      && m.TermAt(meta.lastIncludedIndex) == Some(meta.lastIncludedTerm)
      && (Takeable(n, meta) ==> m.LastLogTerm() == n.LastLogTerm())
  {
  }

  // It is exactly the true term that makes a compaction inside the log invisible.
  lemma CompactInvisibleIff(n: Node, meta: SnapshotMeta)
    requires n.WellFormed() && n.snapshot.lastIncludedIndex < meta.lastIncludedIndex <= n.LastLogIndex()
    ensures SameAbove(n, n.Compact(meta), meta.lastIncludedIndex) <==> Takeable(n, meta)
  {
    CompactEnds(n, meta);
    hide Node.TermAt, Node.EntryAt, Node.EntriesFrom, Node.Compact, Node.LastLogTerm,
      Node.LastLogIndex, Node.WellFormed;
    forall k: LogIndex | k > meta.lastIncludedIndex
      ensures
        var m := n.Compact(meta);
        n.TermAt(k) == m.TermAt(k) && n.EntryAt(k) == m.EntryAt(k) && n.EntriesFrom(k) == m.EntriesFrom(k)
    {
      CompactAt(n, meta, k);
    }
  }

  // Votes are decided the same way, and what they leave behind compacts to the same node.
  lemma VoteUnaffected(n: Node, meta: SnapshotMeta, args: RequestVoteArgs)
    requires Takeable(n, meta)
    ensures
      var (n', reply) := n.HandleRequestVote(args);
      n.Compact(meta).HandleRequestVote(args) == (n'.Compact(meta), reply)
  {
    CompactEnds(n, meta);
  }

  // A peer that needs only entries above the snapshot is sent the same message.
  lemma SendUnaffected(n: Node, meta: SnapshotMeta, peer: NodeId)
    requires Takeable(n, meta) && meta.lastIncludedIndex < n.NextFor(peer) <= n.LastLogIndex() + 1
    ensures n.Compact(meta).BuildAppendEntries(peer) == n.BuildAppendEntries(peer)
  {
    hide Node.TermAt, Node.EntriesFrom, Node.LastLogIndex, Node.Compact, Contiguous;
    var next := n.NextFor(peer);
    CompactEnds(n, meta);
    CompactForm(n, meta);
    CompactAt(n, meta, next);
    if next - 1 > meta.lastIncludedIndex { CompactAt(n, meta, next - 1); }
    KnownTerm(n, next - 1);
  }

  lemma KnownTerm(n: Node, k: LogIndex)
    requires n.WellFormed() && n.snapshot.lastIncludedIndex <= k <= n.LastLogIndex()
    ensures n.TermAt(k).Some?
  {
  }

  lemma CompactMatches(n: Node, meta: SnapshotMeta)
    requires n.WellFormed() && n.snapshot.lastIncludedIndex < meta.lastIncludedIndex <= n.LastLogIndex()
    ensures n.Compact(meta).Matches() == n.Matches()
  {
    CompactEnds(n, meta);
    hide Node.LastLogIndex, Contiguous;
  }

  // The commit rule sees the same terms.
  lemma CommitUnaffected(n: Node, meta: SnapshotMeta)
    requires Takeable(n, meta) && meta.lastIncludedIndex <= n.commitIndex
    ensures n.Compact(meta).AdvanceCommitIndex() == n.AdvanceCommitIndex().Compact(meta)
  {
    hide QuorumIndex, Node.TermAt, Node.Matches, Node.LastLogIndex, Contiguous;
    CompactForm(n, meta);
    CompactMatches(n, meta);
    var candidate := QuorumIndex(n.Matches(), n.Quorum());
    if candidate > n.commitIndex { CompactAt(n, meta, candidate); }
  }

  // The same entries are handed to the state machine.
  lemma ApplyUnaffected(n: Node, meta: SnapshotMeta)
    requires Takeable(n, meta) && meta.lastIncludedIndex <= n.lastApplied
    ensures n.Compact(meta).WellFormed()
    ensures
      var (n', batch) := n.TakeCommitted();
      n.Compact(meta).TakeCommitted() == (n'.Compact(meta), batch)
  {
    hide Node.LastLogIndex, Node.TermAt, Node.Compact, Contiguous;
    CompactEnds(n, meta);
    CompactForm(n, meta);
    LastIsEnd(n);
    LastIsEnd(n.Compact(meta));
    var snap, index := n.snapshot.lastIncludedIndex, meta.lastIncludedIndex;
    var upTo := Min(n.commitIndex, n.LastLogIndex());
    if n.lastApplied < upTo {
      assert n.entries[index - snap..][n.lastApplied - index..upTo - index]
          == n.entries[n.lastApplied - snap..upTo - snap];
    }
    CompactApplied(n, meta, n.lastApplied + |n.Committed()|);
  }

  lemma CompactApplied(n: Node, meta: SnapshotMeta, applied: LogIndex)
    ensures n.(lastApplied := applied).Compact(meta) == n.Compact(meta).(lastApplied := applied)
  {
  }

  // The splice above a compacted prefix is the splice, compacted.
  lemma SpliceUnaffected(entries: Entries, snap: LogIndex, d: nat, prev: LogIndex, es: Entries)
    requires Contiguous(entries, snap + 1) && Contiguous(es, prev + 1)
    requires d <= |entries| && snap + d <= prev <= snap + |entries|
    ensures d <= |Splice(entries, snap, prev, es)|
    ensures Splice(entries[d..], snap + d, prev, es) == Splice(entries, snap, prev, es)[d..]
  {
    hide Splice, Covered;
    CoveredAbove(entries, snap, d, es);
    SpliceReaches(entries, snap, prev, es);
    SpliceReaches(entries[d..], snap + d, prev, es);
    var k := Covered(entries, snap, es);
    if k < |es| {
      assert entries[d..][..prev + k - snap - d] == entries[..prev + k - snap][d..];
    }
  }

  lemma {:induction false} CoveredAbove(entries: Entries, snap: LogIndex, d: nat, es: Entries)
    requires d <= |entries|
    requires forall e :: e in es ==> e.index > snap + d
    ensures Covered(entries[d..], snap + d, es) == Covered(entries, snap, es)
  {
    if es != [] {
      assert es[0] in es;
      assert Present(entries[d..], snap + d, es[0]) == Present(entries, snap, es[0]);
      CoveredAbove(entries, snap, d, es[1..]);
    }
  }

  lemma EntriesUnaffected(n: Node, meta: SnapshotMeta, args: AppendEntriesArgs)
    requires Takeable(n, meta) && meta.lastIncludedIndex <= args.prevLogIndex <= n.LastLogIndex()
    requires Contiguous(args.entries, args.prevLogIndex + 1)
    ensures
      var m, snap, prev, es := n.Compact(meta), n.snapshot.lastIncludedIndex, args.prevLogIndex, args.entries;
      var n' := n.(entries := Splice(n.entries, snap, prev, es));
      && m.WellFormed() && prev <= m.LastLogIndex() && m.snapshot == meta
      && m.(entries := Splice(m.entries, meta.lastIncludedIndex, prev, es)) == n'.Compact(meta)
      && n'.LastLogIndex() == n'.Compact(meta).LastLogIndex()
  {
    hide Splice, Contiguous, Node.LastLogIndex, Node.TermAt, Node.Compact;
    var snap, d := n.snapshot.lastIncludedIndex, meta.lastIncludedIndex - n.snapshot.lastIncludedIndex;
    CompactEnds(n, meta);
    CompactForm(n, meta);
    LastIsEnd(n);
    LastIsEnd(n.Compact(meta));
    SpliceUnaffected(n.entries, snap, d, args.prevLogIndex, args.entries);
    var n' := n.(entries := Splice(n.entries, snap, args.prevLogIndex, args.entries));
    LastIsEnd(n');
    CompactEnds(n', meta);
    CompactForm(n', meta);
  }

  lemma CommitAndCompact(n: Node, meta: SnapshotMeta, commit: LogIndex)
    ensures n.(commitIndex := commit).Compact(meta) == n.Compact(meta).(commitIndex := commit)
    ensures n.Compact(meta).hard == n.hard && n.Compact(meta).commitIndex == n.commitIndex
  {
  }

  lemma StoreUnaffected(n: Node, meta: SnapshotMeta, args: AppendEntriesArgs)
    requires Takeable(n, meta) && meta.lastIncludedIndex <= args.prevLogIndex <= n.LastLogIndex()
    requires Contiguous(args.entries, args.prevLogIndex + 1)
    ensures
      var m := n.Compact(meta);
      && m.WellFormed() && args.prevLogIndex <= m.LastLogIndex()
      && m.Store(args) == n.Store(args).Compact(meta) && m.Store(args).hard == n.Store(args).hard
  {
    hide Splice, Contiguous, Node.LastLogIndex, Node.TermAt, Node.Compact;
    LastIsEnd(n);
    StartsAtCheck(args);
    EntriesUnaffected(n, meta, args);
    var n' := n.(entries := Splice(n.entries, n.snapshot.lastIncludedIndex, args.prevLogIndex, args.entries));
    CommitAndCompact(n, meta, 0);
    CommitAndCompact(n', meta, Min(args.leaderCommit, n'.LastLogIndex()));
  }

  lemma RecogniseUnaffected(n: Node, meta: SnapshotMeta, args: AppendEntriesArgs)
    requires Takeable(n, meta)
    ensures Takeable(n.Recognise(args), meta) && n.Compact(meta).Recognise(args) == n.Recognise(args).Compact(meta)
    ensures n.Compact(meta).hard == n.hard && n.Recognise(args).Compact(meta).hard == n.Recognise(args).hard
  {
  }

  // A message whose check lies at or above the snapshot is answered the same way and
  // leaves the same log, compacted.
  lemma AppendUnaffected(n: Node, meta: SnapshotMeta, args: AppendEntriesArgs)
    requires Takeable(n, meta) && meta.lastIncludedIndex <= args.prevLogIndex
    requires Contiguous(args.entries, args.prevLogIndex + 1)
    ensures n.Compact(meta).WellFormed()
    ensures
      var (n', reply) := n.HandleAppendEntries(args);
      n.Compact(meta).HandleAppendEntries(args) == (n'.Compact(meta), reply)
  {
    hide Node.Store, Node.TermAt, Node.Recognise, Splice, Contiguous, Node.Compact, Node.LastLogIndex;
    CompactEnds(n, meta);
    RecogniseUnaffected(n, meta, args);
    var r := n.Recognise(args);
    CompactEnds(r, meta);
    if args.prevLogIndex > meta.lastIncludedIndex { CompactAt(r, meta, args.prevLogIndex); }
    if args.prevLogIndex <= r.LastLogIndex() { StoreUnaffected(r, meta, args); }
  }

  lemma DropTwice(es: Entries, x: nat, y: nat)
    ensures
      var rest := es[Min(x, |es|)..];
      rest[Min(y, |rest|)..] == es[Min(x + y, |es|)..]
  {
  }

  // Compacting in two goes is compacting once.
  lemma CompactTwice(n: Node, a: SnapshotMeta, b: SnapshotMeta)
    requires n.snapshot.lastIncludedIndex < a.lastIncludedIndex < b.lastIncludedIndex
    ensures n.Compact(a).Compact(b) == n.Compact(b)
  {
    var s, i, j := n.snapshot.lastIncludedIndex, a.lastIncludedIndex, b.lastIncludedIndex;
    DropTwice(n.entries, i - s, j - i);
    assert n.Compact(a).entries == n.entries[Min(i - s, |n.entries|)..];
  }
}
