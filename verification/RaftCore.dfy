/**
  One node's Raft state as the program keeps it: mutable fields, and a write-ahead log
  behind the in-memory entries. Every method is proved to compute the function of
  `RaftNode` of the same name, and to keep memory and log coupled.
*/
module RaftCores {
  import opened Types
  import opened Quorum
  import opened SegmentView
  import opened WalLog
  import opened Mirror
  import opened RaftNode
  import opened LeaderRules
  import opened Splicing
  import opened Sorting

  class RaftCore {
    const id: NodeId
    const peers: seq<NodeId>
    const codec: Codec
    const log: Log
    var hard: HardState
    var hardFile: HardState  // the durable copy of `hard`
    var entries: Entries
    var snapshot: SnapshotMeta
    var role: Role
    var commitIndex: LogIndex
    var lastApplied: LogIndex
    var leaderId: Option<NodeId>
    var nextIndex: map<NodeId, LogIndex>
    var matchIndex: map<NodeId, LogIndex>

    function State(): Node
      reads this
    {
      Node(id, peers, hard, entries, snapshot, role, commitIndex, lastApplied, leaderId, nextIndex, matchIndex)
    }

    // The log holds the entries above the snapshot, and they are numbered without gaps.
    ghost predicate Stored()
      reads this`entries, this`snapshot, log, log.segments
    {
      && log.Valid()
      && Contiguous(entries, snapshot.lastIncludedIndex + 1)
      && Mirrors(codec, log.firstIndex, log.Contents(), snapshot.lastIncludedIndex, entries)
    }

    // Memory and disk agree, whether or not the log is flushed.
    ghost predicate Coupled()
      reads this`hard, this`hardFile, this`entries, this`snapshot, log, log.segments
    {
      hardFile == hard && Stored()
    }

    // Between operations nothing is waiting in a buffer.
    ghost predicate Valid()
      reads this`hard, this`hardFile, this`entries, this`snapshot, log, log.segments
    {
      Coupled() && log.Synced()
    }

    // A node as it starts: everything volatile is reset.
    constructor (id: NodeId, peers: seq<NodeId>, codec: Codec, hard: HardState, log: Log,
                 entries: Entries, snapshot: SnapshotMeta)
      ensures State() == Started(id, peers, hard, entries, snapshot)
      ensures this.codec == codec && this.log == log && hardFile == hard
    {
      this.id, this.peers, this.codec, this.log := id, peers, codec, log;
      this.hard, this.hardFile := hard, hard;
      this.entries, this.snapshot := entries, snapshot;
      role := Follower;
      commitIndex, lastApplied := snapshot.lastIncludedIndex, snapshot.lastIncludedIndex;
      leaderId := None;
      nextIndex, matchIndex := map[], map[];
    }

    // ---- elections ----

    method PersistHard()
      modifies this`hardFile
      ensures hardFile == hard
    {
      hardFile := hard;
    }

    method BecomeFollower(term: Term, leader: Option<NodeId>)
      requires Coupled()
      modifies this`hard, this`hardFile, this`role, this`leaderId
      ensures Coupled() && (old(log.Synced()) ==> Valid())
      ensures State() == old(State()).BecomeFollower(term, leader)
    {
      hide Stored, Log.Synced;
      if term > hard.currentTerm {
        hard := HardState(term, None);
        PersistHard();
      }
      role := Follower;
      leaderId := leader;
    }

    method BecomeCandidate() returns (args: RequestVoteArgs)
      requires Valid()
      modifies this`hard, this`hardFile, this`role, this`leaderId
      ensures Valid() && (State(), args) == old(State()).BecomeCandidate()
    {
      hide Stored, Log.Synced;
      role := Candidate;
      hard := HardState(hard.currentTerm + 1, Some(id));
      PersistHard();
      leaderId := None;
      args := RequestVoteArgs(hard.currentTerm, id, State().LastLogIndex(), State().LastLogTerm());
    }

    method BecomeLeader()
      requires Valid()
      modifies this`role, this`leaderId, this`nextIndex, this`matchIndex
      ensures Valid() && State() == old(State()).BecomeLeader()
    {
      hide Stored, Log.Synced, Node.BecomeLeader;
      ghost var before := State();
      role := Leader;
      leaderId := Some(id);
      var next := State().LastLogIndex() + 1;
      nextIndex, matchIndex := map[], map[];
      var k: nat := 0;
      while k < |peers|
        invariant k <= |peers|
        invariant role == Leader && leaderId == Some(id)
        invariant forall p :: p in peers[..k] <==> p in nextIndex
        invariant forall p :: p in peers[..k] <==> p in matchIndex
        invariant forall p :: p in nextIndex ==> nextIndex[p] == next
        invariant forall p :: p in matchIndex ==> matchIndex[p] == 0
      {
        nextIndex := nextIndex[peers[k] := next];
        matchIndex := matchIndex[peers[k] := 0];
        k := k + 1;
      }
      assert peers[..k] == peers;
      LeaderIndices(before, nextIndex, matchIndex);
    }

    method HandleRequestVote(args: RequestVoteArgs) returns (reply: RequestVoteReply)
      requires Valid()
      modifies this`hard, this`hardFile, this`role, this`leaderId
      ensures Valid() && (State(), reply) == old(State()).HandleRequestVote(args)
    {
      hide Stored, Log.Synced;
      if args.term < hard.currentTerm { return RequestVoteReply(hard.currentTerm, false); }
      if args.term > hard.currentTerm { BecomeFollower(args.term, None); }
      var logOk := State().UpToDate(args.lastLogTerm, args.lastLogIndex);
      var freeToVote := hard.votedFor == None || hard.votedFor == Some(args.candidateId);
      var granted := logOk && freeToVote;
      if granted {
        hard := hard.(votedFor := Some(args.candidateId));
        PersistHard();
      }
      reply := RequestVoteReply(hard.currentTerm, granted);
    }

    // ---- replication, leader side ----

    // Append a command as leader; not durable until `Sync`.
    method AppendCommand(command: Command, spill: nat) returns (r: Result<LogEntry>)
      requires Coupled()
      requires codec.Stores(LogEntry(hard.currentTerm, State().LastLogIndex() + 1, command))
      modifies this`entries, log, log.segments
      ensures Coupled()
      ensures forall i :: 0 <= i < |log.segments| ==> log.segments[i] in old(log.segments) || fresh(log.segments[i])
      ensures
        var spec := old(State()).AppendCommand(command);
        if spec.Ok? then r.Ok? && State() == spec.value && entries == old(entries) + [r.value]
        else r == Err(spec.error) && State() == old(State()) && (old(log.Synced()) ==> log.Synced())
    {
      hide Stored, Log.Synced;
      if role != Leader { return Err(RaftError); }
      var index := State().LastLogIndex() + 1;
      var entry := LogEntry(hard.currentTerm, index, command);
      AppendReplicated(entry, spill);
      r := Ok(entry);
    }

    method Sync()
      requires Coupled()
      modifies log.segments
      ensures Valid() && log.segments == old(log.segments)
    {
      hide Log.Valid, Log.Synced, Flatten, Mirrors;
      log.Sync();
    }

    // The message for a peer: for one whose next entry is still held, the rest of the log from
    // there on, behind a check the receiver's log must match.
    method BuildAppendEntries(peer: NodeId) returns (args: AppendEntriesArgs)
      requires Stored()
      ensures args == State().BuildAppendEntries(peer)
      ensures args.term == hard.currentTerm && args.leaderId == id && args.leaderCommit == commitIndex
      ensures
        var n, next := State(), State().NextFor(peer);
        n.BaseIndex() <= next <= n.LastLogIndex() + 1 ==>
          && args.prevLogIndex == next - 1 && n.TermAt(next - 1) == Some(args.prevLogTerm)
          && Contiguous(args.entries, next) && args.LastSent() == n.LastLogIndex()
          && next - n.BaseIndex() <= |entries| && entries[..next - n.BaseIndex()] + args.entries == entries
    {
      var next := if peer in nextIndex then nextIndex[peer] else State().LastLogIndex() + 1;
      var prev := Pred(next);
      var prevTerm := State().TermAt(prev).GetOr(snapshot.lastIncludedTerm);
      args := AppendEntriesArgs(hard.currentTerm, id, prev, prevTerm, State().EntriesFrom(next), commitIndex);
      assert args == State().BuildAppendEntries(peer);
      hide Stored, Node.BuildAppendEntries, Contiguous, Node.TermAt, Node.LastLogIndex;
      Dense();
      if State().BaseIndex() <= State().NextFor(peer) <= State().LastLogIndex() + 1 { SendIsTail(State(), peer); }
    }

    method OnAppendEntriesReply(peer: NodeId, lastSent: LogIndex, reply: AppendEntriesReply)
      requires Valid()
      modifies this`matchIndex, this`nextIndex, this`commitIndex
      ensures Valid() && State() == old(State()).OnAppendEntriesReply(peer, lastSent, reply)
    {
      hide Stored, Log.Synced;
      if role != Leader { return; }
      if reply.success {
        matchIndex := matchIndex[peer := lastSent];
        nextIndex := nextIndex[peer := lastSent + 1];
        AdvanceCommitIndex();
      } else {
        var current := if peer in nextIndex then nextIndex[peer] else 1;
        var hint := if reply.conflictIndex > 0 then reply.conflictIndex else Pred(current);
        var backedOff := Max(Min(hint, Pred(current)), 1);
        nextIndex := nextIndex[peer := backedOff];
      }
    }

    // Commit the highest index on a majority, if it is of the current term.
    method AdvanceCommitIndex()
      requires Valid()
      modifies this`commitIndex
      ensures Valid() && State() == old(State()).AdvanceCommitIndex()
    {
      hide Stored, Log.Synced, SortDescending, CountGE, QuorumIndex, Descending;
      var matches := State().MatchesOf(peers) + [State().LastLogIndex()];
      var sorted := SortDescending(matches);
      SortedPick(matches, sorted, State().Quorum());
      var candidate := sorted[State().Quorum() - 1];
      if candidate > commitIndex && State().TermAt(candidate) == Some(hard.currentTerm) {
        commitIndex := candidate;
      }
    }

    // ---- apply ----

    method TakeCommitted() returns (out: Entries)
      requires Valid()
      modifies this`lastApplied
      ensures Valid() && (State(), out) == old(State()).TakeCommitted()
    {
      hide Stored, Log.Synced;
      out := [];
      ghost var before := State();
      Dense();
      while lastApplied < commitIndex
        invariant Valid() && State() == before.(lastApplied := lastApplied)
        invariant lastApplied == before.lastApplied + |out|
        invariant |out| <= |before.Committed()| && out == before.Committed()[..|out|]
        decreases commitIndex - lastApplied
      {
        CommittedNext(before, |out|);
        var next := lastApplied + 1;
        var entry := State().EntryAt(next);
        if entry.None? { break; }
        out := out + [entry.value];
        lastApplied := next;
      }
      CommittedNext(before, |out|);
      assert out == before.Committed();
    }

    lemma Dense()
      requires Stored()
      ensures State().WellFormed() && State().LastLogIndex() == snapshot.lastIncludedIndex + |entries|
    {
    }

    // ---- replication, follower side ----

    // Drop every entry from `index` on, in memory and in the log.
    method TruncateFrom(index: LogIndex, interruptions: nat, spill: nat) returns (r: Result<()>)
      requires Valid() && snapshot.lastIncludedIndex < index <= State().LastLogIndex()
      modifies this`entries, log, log.segments
      ensures r == Ok(()) && Valid()
      ensures forall i :: 0 <= i < |log.segments| ==> log.segments[i] in old(log.segments) || fresh(log.segments[i])
      ensures State() == old(State()).(entries := old(entries)[..index - snapshot.lastIncludedIndex - 1])
    {
      hide Stored, Log.Valid, Log.Synced, Flatten, Mirrors, Contiguous, Retained;
      TailCut(index);
      entries := Retained(entries, index);
      r := log.TruncateSynced(Pred(index), interruptions, spill);
      Recoupled();
    }

    // What is left in memory, and what the log must be cut to for the two to agree.
    lemma TailCut(index: LogIndex)
      requires Stored() && snapshot.lastIncludedIndex < index <= State().LastLogIndex()
      ensures log.Valid() && log.firstIndex <= index <= log.lastIndex && index - log.firstIndex <= |log.Contents()|
      ensures
        var snap := snapshot.lastIncludedIndex;
        && index - snap - 1 <= |entries| && Retained(entries, index) == entries[..index - snap - 1]
        && Contiguous(Retained(entries, index), snap + 1)
        && Mirrors(codec, log.firstIndex, log.Contents()[..index - log.firstIndex], snap, Retained(entries, index))
    {
      hide Log.Valid, Flatten;
      log.Spans();
      LogEnds();
      MirrorSuffix(codec, log.firstIndex, log.Contents(), snapshot.lastIncludedIndex, entries, index - 1);
      RetainedIsPrefix(entries, snapshot.lastIncludedIndex + 1, index);
    }

    lemma Recoupled()
      requires log.Valid() && Contiguous(entries, snapshot.lastIncludedIndex + 1)
      requires Mirrors(codec, log.firstIndex, log.Contents(), snapshot.lastIncludedIndex, entries)
      ensures Stored()
    {
    }

    // Append a replicated entry that extends the log by one.
    method AppendReplicated(entry: LogEntry, spill: nat)
      requires Coupled() && codec.Stores(entry) && entry.index == State().LastLogIndex() + 1
      modifies this`entries, log, log.segments
      ensures Coupled()
      ensures forall i :: 0 <= i < |log.segments| ==> log.segments[i] in old(log.segments) || fresh(log.segments[i])
      ensures State() == old(State()).(entries := old(entries) + [entry])
    {
      hide Log.Valid, Log.Synced, Flatten;
      log.Spans();
      MirrorAppend(codec, log.firstIndex, log.Contents(), snapshot.lastIncludedIndex, entries, entry);
      var walIndex := log.Append(codec.encode(entry), spill);
      assert walIndex == entry.index;
      entries := entries + [entry];
    }

    // Splice one entry in. A conflict needs a flushed log, because truncation reads it back.
    method SpliceEntry(entry: LogEntry, interruptions: nat, spill: nat) returns (r: Result<()>)
      requires Coupled() && codec.Stores(entry) && entry.index <= snapshot.lastIncludedIndex + |entries| + 1
      requires
        || Present(entries, snapshot.lastIncludedIndex, entry)
        || entry.index > State().LastLogIndex()
        || log.Synced()
      modifies this`entries, log, log.segments
      ensures r == Ok(()) && Coupled()
      ensures forall i :: 0 <= i < |log.segments| ==> log.segments[i] in old(log.segments) || fresh(log.segments[i])
      ensures State() == old(State()).(entries := SpliceOne(old(entries), snapshot.lastIncludedIndex, entry))
      ensures old(Present(entries, snapshot.lastIncludedIndex, entry)) && old(log.Synced()) ==> log.Synced()
    {
      hide Stored, Log.Synced;
      Dense();
      r := Ok(());
      if entry.index < State().BaseIndex() { return; }
      var local := State().TermAt(entry.index);
      if local.Some? && local.value == entry.term { return; }
      if local.Some? {
        r := TruncateFrom(entry.index, interruptions, spill);
        if r.Err? { return; }
        Dense();
        AppendReplicated(entry, spill);
      } else {
        AppendReplicated(entry, spill);
      }
    }

    method SpliceEntries(args: AppendEntriesArgs, interruptions: nat, spill: nat) returns (r: Result<()>)
      requires Valid() && State().Extends(args) && State().LastLogIndex() == snapshot.lastIncludedIndex + |entries|
      requires forall e :: e in args.entries ==> codec.Stores(e)
      modifies this`entries, log, log.segments
      ensures r == Ok(()) && Coupled()
      ensures forall i :: 0 <= i < |log.segments| ==> log.segments[i] in old(log.segments) || fresh(log.segments[i])
      ensures old(State().WellFormed()) && State() == old(State()).(entries :=
        Splice(old(entries), snapshot.lastIncludedIndex, args.Start(), args.entries))
    {
      hide Stored, Log.Synced, Covered, Splice, SpliceOne, Present;
      ghost var before := State();
      Dense();
      var es, snap, prev := args.entries, snapshot.lastIncludedIndex, args.Start();
      SpliceReaches(before.entries, snap, prev, es[..0]);
      var m: nat := 0;
      while m < |es|
        invariant m <= |es| && Coupled()
        invariant forall i :: 0 <= i < |log.segments| ==> log.segments[i] in old(log.segments) || fresh(log.segments[i])
        invariant State() == before.(entries := Splice(before.entries, snap, prev, es[..m]))
        invariant Covered(before.entries, snap, es[..m]) == m ==> log.Synced()
      {
        SpliceSnoc(before.entries, snap, prev, es, m);
        CoveredSnoc(before.entries, snap, prev, es, m);
        r := SpliceEntry(es[m], interruptions, spill);
        if r.Err? { return; }
        m := m + 1;
      }
      assert es[..m] == es;
      r := Ok(());
    }

    method HandleAppendEntries(args: AppendEntriesArgs, interruptions: nat, spill: nat)
      returns (r: Result<AppendEntriesReply>)
      requires Valid() && State().CanHandle(args)
      requires forall e :: e in args.entries ==> codec.Stores(e)
      modifies this`hard, this`hardFile, this`role, this`leaderId, this`entries, this`commitIndex, log, log.segments
      ensures Valid()
      ensures forall i :: 0 <= i < |log.segments| ==> log.segments[i] in old(log.segments) || fresh(log.segments[i])
      ensures r.Ok? && (State(), r.value) == old(State()).HandleAppendEntries(args)
    {
      hide Stored, Log.Synced, Splice;
      Dense();
      if args.term < hard.currentTerm { return Ok(State().Reject(0)); }
      if args.term > hard.currentTerm {
        BecomeFollower(args.term, Some(args.leaderId));
      } else {
        role := Follower;
        leaderId := Some(args.leaderId);
      }
      if args.prevLogIndex > State().LastLogIndex() {
        return Ok(State().Reject(State().LastLogIndex() + 1));
      }
      var local := State().TermAt(args.prevLogIndex);
      if local.Some? && local.value != args.prevLogTerm {
        return Ok(State().Reject(args.prevLogIndex));
      }
      var spliced := SpliceEntries(args, interruptions, spill);
      if spliced.Err? { return Err(WalError); }
      Sync();
      if args.leaderCommit > commitIndex {
        commitIndex := Min(args.leaderCommit, State().LastLogIndex());
      }
      r := Ok(AppendEntriesReply(hard.currentTerm, true, 0));
    }

    // ---- compaction ----

    // Forget what the snapshot covers, in memory and, by whole segments, in the log.
    method Compact(meta: SnapshotMeta)
      requires Valid()
      modifies this`entries, this`snapshot, log
      ensures State() == old(State()).Compact(meta)
      ensures Valid() <==> meta.lastIncludedIndex <= old(State()).LastLogIndex()
      ensures forall i :: 0 <= i < |log.segments| ==> log.segments[i] in old(log.segments)
      // A newer snapshot leaves no leading segment that it covers whole.
      ensures meta.lastIncludedIndex > old(snapshot.lastIncludedIndex) ==>
        log.view != [] && (|log.view| == 1 || log.view[0].End() > meta.lastIncludedIndex + 1)
    {
      hide Log.Valid, Log.Synced, Flatten, Mirrors, Contiguous, Above, Node.Compact;
      ghost var n := State();
      CompactedEntries(n, meta);
      log.Spans();
      LogEnds();
      if meta.lastIncludedIndex <= snapshot.lastIncludedIndex { return; }
      var snap, snap' := snapshot.lastIncludedIndex, meta.lastIncludedIndex;
      ghost var first, rs := log.firstIndex, log.Contents();
      if snap' <= n.LastLogIndex() {
        MirrorCompact(codec, first, rs, snap, entries, snap');
      }
      entries := Above(entries, snap');
      log.TruncatePrefix(snap' + 1);
      snapshot := meta;
      log.Spans();
      if snap' <= n.LastLogIndex() {
        MirrorPrefix(codec, first, rs, snap', entries, log.firstIndex);
      } else if Stored() {
        LogEnds();
      }
    }

    // The log ends where the entries do.
    lemma LogEnds()
      requires Stored()
      ensures log.lastIndex == snapshot.lastIncludedIndex + |entries| == State().LastLogIndex()
    {
      log.Spans();
    }
  }

  // A node right after it starts.
  function Started(id: NodeId, peers: seq<NodeId>, hard: HardState, entries: Entries, snapshot: SnapshotMeta): Node {
    Node(id, peers, hard, entries, snapshot, Follower, snapshot.lastIncludedIndex, snapshot.lastIncludedIndex,
         None, map[], map[])
  }

  // What `Compact` does to the entries, and to memory as a whole.
  lemma CompactedEntries(n: Node, meta: SnapshotMeta)
    requires n.WellFormed()
    ensures
      var snap, index := n.snapshot.lastIncludedIndex, meta.lastIncludedIndex;
      if index <= snap then n.Compact(meta) == n
      else
        && n.Compact(meta) == n.(entries := Above(n.entries, index), snapshot := meta)
        && (index <= n.LastLogIndex() ==>
              && index - snap <= |n.entries| && Above(n.entries, index) == n.entries[index - snap..]
              && Contiguous(Above(n.entries, index), index + 1))
  {
    AboveIsSuffix(n.entries, n.BaseIndex(), meta.lastIncludedIndex);
  }

  // What comes after the first `k` committed entries.
  lemma CommittedNext(n: Node, k: nat)
    requires n.WellFormed() && k <= |n.Committed()|
    ensures n.lastApplied + k < n.commitIndex ==>
      n.EntryAt(n.lastApplied + k + 1) == if k < |n.Committed()| then Some(n.Committed()[k]) else None
    ensures n.lastApplied + k >= n.commitIndex ==> k == |n.Committed()|
  {
  }

  lemma LeaderIndices(n: Node, next: map<NodeId, LogIndex>, match_: map<NodeId, LogIndex>)
    requires forall p :: p in n.peers <==> p in next
    requires forall p :: p in n.peers <==> p in match_
    requires forall p :: p in next ==> next[p] == n.LastLogIndex() + 1
    requires forall p :: p in match_ ==> match_[p] == 0
    ensures n.BecomeLeader() == n.(role := Leader, leaderId := Some(n.id), nextIndex := next, matchIndex := match_)
  {
  }

  // `entries.retain(|e| e.index < index)`.
  function Retained(entries: Entries, index: LogIndex): Entries {
    if entries == [] then []
    else
      var rest := Retained(entries[1..], index);
      if entries[0].index < index then [entries[0]] + rest else rest
  }

  lemma {:induction false} RetainedIsPrefix(entries: Entries, first: LogIndex, index: LogIndex)
    requires Contiguous(entries, first)
    ensures Retained(entries, index) == entries[..if index <= first then 0 else Min(index - first, |entries|)]
    ensures Contiguous(Retained(entries, index), first)
  {
    if entries != [] { RetainedIsPrefix(entries[1..], first + 1, index); }
  }

  // `entries.retain(|e| e.index > index)`.
  function Above(entries: Entries, index: LogIndex): Entries {
    if entries == [] then []
    else
      var rest := Above(entries[1..], index);
      if entries[0].index > index then [entries[0]] + rest else rest
  }

  lemma {:induction false} AboveIsSuffix(entries: Entries, first: LogIndex, index: LogIndex)
    requires Contiguous(entries, first)
    ensures Above(entries, index) == entries[if index < first then 0 else Min(index + 1 - first, |entries|)..]
  {
    if entries != [] { AboveIsSuffix(entries[1..], first + 1, index); }
  }
}
