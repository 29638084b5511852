/**
  The driver's compound steps, on the objects of one node: each does to the node exactly
  what the corresponding step of the cluster does to its server.
*/
module Driver {
  import opened Types
  import opened RaftNode
  import opened StateMachine
  import opened Record
  import opened SegmentView
  import opened WalLog
  import opened Mirror
  import opened RaftCores
  import opened Restarting
  import opened Stores
  import opened LeaderRules
  import opened Cluster
  import opened Invariant
  import opened ElectionSteps
  import opened Theorems

  // The objects hold the state of the server.
  ghost predicate Runs(core: RaftCore, store: Store, s: Server)
    reads core, core.log, core.log.segments, store, store.memtable
  {
    core.Valid() && store.Valid() && s.core == core.State() && s.store == store.State()
  }

  // Start a node on an empty disk: it is a server of the initial cluster.
  method Bootstrap(id: NodeId, peers: seq<NodeId>, codec: Codec, crc: Checksum, maxSegmentBytes: nat, threshold: nat,
                   interruptions: nat, ghost members: set<NodeId>) returns (core: RaftCore, store: Store)
    requires PeersOf(peers, members, id)
    ensures fresh(core) && fresh(store)
    ensures
      var s := Server(core.State(), {}, StateMachine.Open(None, threshold), []);
      Runs(core, store, s) && FreshServer(members, id, s)
  {
    hide Log.Valid, Log.Synced, Flatten;
    store := new Store(map[], threshold);
    var log := EmptyLog(crc, maxSegmentBytes, interruptions);
    LoadedBelow(codec, 1, [], 0);
    var restored := Restore(id, peers, codec, None, store.lastSnapshot, log, interruptions);
    core := restored.value;
  }

  // Open a log where there is none.
  method EmptyLog(crc: Checksum, maxSegmentBytes: nat, interruptions: nat) returns (log: Log)
    ensures fresh(log) && fresh(set s | s in log.segments) && log.Shape() && log.Valid() && log.Synced()
    ensures log.Contents() == [] && log.firstIndex == 1
  {
    hide Log.Shape, Log.Synced;
    var r := WalLog.Open(crc, maxSegmentBytes, [], interruptions);
    FlattenOne(SegView(1, []));
    log := r.value;
  }

  // Fold in one reply of the campaign for `term`; `votes` counts the votes so far.
  method CountVote(core: RaftCore, from: NodeId, term: Term, votes: nat, reply: RequestVoteReply, spill: nat,
                   ghost c: Cluster, ghost i: NodeId) returns (votes': nat)
    requires core.Valid() && core.codec.Stores(LogEntry(core.hard.currentTerm, core.State().LastLogIndex() + 1, Noop))
    requires i in c.servers && c.servers[i].core == core.State()
    requires from !in c.servers[i].granted && votes == 1 + |c.servers[i].granted|
    modifies core`hard, core`hardFile, core`role, core`leaderId, core`nextIndex, core`matchIndex, core`entries,
             core`commitIndex, core.log, core.log.segments
    ensures core.Valid()
    ensures
      var s' := OnVoteReply(c, from, i, term, reply).servers[i];
      core.State() == s'.core && votes' == 1 + |s'.granted|
  {
    hide RaftCore.Stored, Log.Synced, Node.BecomeLeader, Node.AdvanceCommitIndex;
    votes' := votes;
    if reply.term > core.hard.currentTerm {
      core.BecomeFollower(reply.term, None);
      return;
    }
    if core.role != Candidate || core.hard.currentTerm != term { return; }
    if reply.voteGranted {
      votes' := votes + 1;
      if votes' >= core.State().Quorum() { TakeOffice(core, spill); }
    }
  }

  // Become leader and commit a no-op in the new term.
  method TakeOffice(core: RaftCore, spill: nat)
    requires core.Valid() && core.codec.Stores(LogEntry(core.hard.currentTerm, core.State().LastLogIndex() + 1, Noop))
    modifies core`role, core`leaderId, core`nextIndex, core`matchIndex, core`entries, core`commitIndex,
             core.log, core.log.segments
    ensures core.Valid() && old(core.State()).BecomeLeader().role == Leader
    ensures core.State() == old(core.State()).BecomeLeader().AppendCommand(Noop).value.AdvanceCommitIndex()
  {
    hide RaftCore.Stored, Log.Synced, Node.AdvanceCommitIndex;
    core.BecomeLeader();
    var entry := core.AppendCommand(Noop, spill);
    core.Sync();
    core.AdvanceCommitIndex();
  }

  // Fold in a reply to an AppendEntries that was sent in `term`.
  method RecordAnswer(core: RaftCore, from: NodeId, term: Term, lastSent: LogIndex, reply: AppendEntriesReply,
                      ghost c: Cluster, ghost i: NodeId)
    requires core.Valid() && i in c.servers && c.servers[i].core == core.State()
    modifies core`hard, core`hardFile, core`role, core`leaderId, core`matchIndex, core`nextIndex, core`commitIndex
    ensures core.Valid() && core.State() == OnAppendReply(c, from, i, term, lastSent, reply).servers[i].core
  {
    hide RaftCore.Stored, Log.Synced, Node.AdvanceCommitIndex;
    if reply.term > core.hard.currentTerm {
      core.BecomeFollower(reply.term, None);
      return;
    }
    if core.role != Leader || core.hard.currentTerm != term { return; }
    core.OnAppendEntriesReply(from, lastSent, reply);
  }

  // Build the message for a peer; sending it is the cluster's send step wherever that is
  // allowed.
  method Send(core: RaftCore, peer: NodeId, ghost c: Cluster, ghost i: NodeId) returns (args: AppendEntriesArgs)
    requires core.Valid() && i in c.servers && c.servers[i].core == core.State()
    ensures Enabled(c, Replicate(i, peer)) ==> Exec(c, Replicate(i, peer)) == c.Send({Append(peer, args)})
  {
    hide RaftCore.Stored, Log.Synced, Node.BuildAppendEntries;
    args := core.BuildAppendEntries(peer);
  }

  // Receive an AppendEntries: the node and its answer are those of the cluster's step.
  method Receive(core: RaftCore, args: AppendEntriesArgs, interruptions: nat, spill: nat, ghost c: Cluster,
                 ghost i: NodeId)
    returns (reply: AppendEntriesReply)
    requires core.Valid() && forall e :: e in args.entries ==> core.codec.Stores(e)
    requires Enabled(c, Deliver(Append(i, args))) && c.servers[i].core == core.State()
    modifies core`hard, core`hardFile, core`role, core`leaderId, core`entries, core`commitIndex, core.log,
             core.log.segments
    ensures core.Valid() && core.State() == OnAppend(c, i, args).servers[i].core
    ensures AppendReply(i, args.leaderId, args.term, args.LastSent(), reply) in OnAppend(c, i, args).net
  {
    hide RaftCore.Stored, Log.Synced, Node.HandleAppendEntries;
    var r := core.HandleAppendEntries(args, interruptions, spill);
    reply := r.value;
  }

  // Receive a RequestVote: likewise.
  method ReceiveVoteRequest(core: RaftCore, args: RequestVoteArgs, ghost c: Cluster, ghost i: NodeId)
    returns (reply: RequestVoteReply)
    requires core.Valid() && i in c.servers && c.servers[i].core == core.State()
    modifies core`hard, core`hardFile, core`role, core`leaderId
    ensures core.Valid() && core.State() == OnVoteRequest(c, i, args).servers[i].core
    ensures VoteReply(i, args.candidateId, args.term, reply) in OnVoteRequest(c, i, args).net
  {
    hide RaftCore.Stored, Log.Synced, Node.HandleRequestVote;
    reply := core.HandleRequestVote(args);
  }

  // Start a campaign: likewise, with a request to every peer.
  method StartCampaign(core: RaftCore, ghost c: Cluster, ghost i: NodeId) returns (args: RequestVoteArgs)
    requires core.Valid() && i in c.servers && c.servers[i].core == core.State()
    modifies core`hard, core`hardFile, core`role, core`leaderId
    ensures core.Valid() && core.State() == Campaign(c, i).servers[i].core
    ensures Campaign(c, i).net == c.net + set p | p in core.peers :: VoteRequest(p, args)
  {
    hide RaftCore.Stored, Log.Synced;
    args := core.BecomeCandidate();
  }

  // Accept a client's command: append, sync, and commit at once if that is a quorum.
  method Propose(core: RaftCore, command: Command, spill: nat, ghost c: Cluster, ghost i: NodeId)
    returns (r: Result<LogIndex>)
    requires core.Valid()
    requires core.codec.Stores(LogEntry(core.hard.currentTerm, core.State().LastLogIndex() + 1, command))
    requires i in c.servers && c.servers[i].core == core.State()
    modifies core`entries, core`commitIndex, core.log, core.log.segments
    ensures core.Valid()
    ensures
      if Enabled(c, Step.Propose(i, command)) then
        && r == Ok(old(core.State()).LastLogIndex() + 1)
        && core.State() == Exec(c, Step.Propose(i, command)).servers[i].core
      else r == Err(RaftError) && core.State() == old(core.State())
  {
    hide RaftCore.Stored, Log.Synced;
    if core.role != Leader { return Err(RaftError); }
    var entry := core.AppendCommand(command, spill);
    core.Sync();
    core.AdvanceCommitIndex();
    r := Ok(entry.value.index);
  }

  // Apply a batch to the store, entry by entry.
  method ApplyBatch(store: Store, batch: Entries)
    requires store.Valid()
    modifies store.memtable
    ensures store.Valid() && store.State() == old(store.State()).(table := ApplyAll(old(store.State()).table, batch))
  {
    ghost var before := store.State();
    var k: nat := 0;
    while k < |batch|
      invariant k <= |batch| && store.Valid()
      invariant store.State() == before.(table := ApplyAll(before.table, batch[..k]))
    {
      ApplyAllConcat(before.table, batch[..k], [batch[k]]);
      assert batch[..k + 1] == batch[..k] + [batch[k]];
      store.Apply(batch[k].index, batch[k].command);
      k := k + 1;
    }
    assert batch[..k] == batch;
  }

  // Snapshot and compact when the store asks for it.
  method SnapshotIfDue(core: RaftCore, store: Store, stuck: set<LogIndex>)
    requires core.Valid() && store.Valid() && store.memtable.lastApplied <= core.State().LastLogIndex()
    modifies core`entries, core`snapshot, core.log, store`disk, store`lastSnapshot
    ensures core.Valid() && store.Valid()
    ensures
      var n, table := old(core.State()), old(store.State());
      if !table.ShouldSnapshot() then core.State() == n && store.State() == table
      else
        && store.State() == table.Snapshot(n.TermAt(table.table.lastApplied).GetOr(0))
        && core.State() == n.Compact(store.State().lastSnapshot)
  {
    hide RaftCore.Stored, Log.Synced, Node.Compact, Node.TermAt;
    var due := store.ShouldSnapshot();
    if due {
      var term := core.State().TermAt(store.memtable.lastApplied).GetOr(0);
      var meta := store.Snapshot(term, stuck);
      core.Compact(meta);
    }
  }

  // Apply what is committed.
  method ApplyCommitted(core: RaftCore, store: Store, stuck: set<LogIndex>, ghost c: Cluster, ghost i: NodeId)
    requires Inv(c) && i in c.servers && Runs(core, store, c.servers[i])
    modifies core`lastApplied, core`entries, core`snapshot, core.log, store`disk, store`lastSnapshot, store.memtable
    ensures c.servers[i].core.WellFormed() && Runs(core, store, Applied(c.servers[i]))
  {
    BatchReaches(c, i);
    hide Inv, Runs, Applied;
    ApplyServer(core, store, stuck, c.servers[i]);
  }

  method ApplyServer(core: RaftCore, store: Store, stuck: set<LogIndex>, ghost s: Server)
    requires Runs(core, store, s) && s.core.WellFormed()
    requires ApplyAll(s.store.table, s.core.Committed()).lastApplied <= s.core.LastLogIndex()
    modifies core`lastApplied, core`entries, core`snapshot, core.log, store`disk, store`lastSnapshot, store.memtable
    ensures Runs(core, store, Applied(s))
  {
    hide RaftCore.Valid, Store.Valid, ApplyAll, Fold, Node.Compact, Node.TermAt, Node.Committed, Applied;
    AppliedForm(s);
    var committed := core.TakeCommitted();
    if committed == [] { return; }
    ApplyBatch(store, committed);
    SnapshotIfDue(core, store, stuck);
  }

  // What applying does to core and store.
  lemma AppliedForm(s: Server)
    requires s.core.WellFormed()
    ensures
      var batch, s' := s.core.Committed(), Applied(s);
      var n, store := s.core.TakeCommitted().0, s.store.(table := ApplyAll(s.store.table, batch));
      if batch == [] then s' == s && n == s.core
      else if !store.ShouldSnapshot() then s'.core == n && s'.store == store
      else
        && s'.store == store.Snapshot(n.TermAt(store.table.lastApplied).GetOr(0))
        && s'.core == n.Compact(s'.store.lastSnapshot)
  {
    hide ApplyAll, Node.Committed;
  }

  // After the batch is applied, the table is at an index the log holds.
  lemma BatchReaches(c: Cluster, i: NodeId)
    requires Inv(c) && i in c.servers
    ensures
      var s := c.servers[i];
      s.core.WellFormed() && ApplyAll(s.store.table, s.core.Committed()).lastApplied <= s.core.LastLogIndex()
  {
    hide Inv, HistoryOk, Rooted, RoleOk;
    ServerFacts(c, i);
    var s := c.servers[i];
    Views(c.servers.Keys, i, s);
    RootedIndices(c.hist, s.Log());
    BatchFeedsStore(s.core, s.Log());
  }

  // Kill the process and start it again on the same disk.
  method Restart(core: RaftCore, store: Store, interruptions: nat, ghost c: Cluster, ghost i: NodeId)
    returns (r: Result<RaftCore>, store': Store)
    requires Inv(c) && i in c.servers && Runs(core, store, c.servers[i])
    ensures r.Ok? && fresh(r.value) && fresh(store') && Runs(r.value, store', Restarted(c.servers[i]))
  {
    hide Inv, RaftCore.Stored, Log.Synced;
    SnapshotShared(c, i);
    store' := Reopen(store);
    r := Reboot(core, store'.lastSnapshot, interruptions);
  }

  // Kill the process while it receives entries and start it again on what that left on disk:
  // the node is the server of the cluster's crash step, cut off at some point.
  method RestartCutOff(codec: Codec, crc: Checksum, maxSegmentBytes: nat, files: WalLog.Files, hardFile: HardState,
                       store: Store, id: NodeId, peers: seq<NodeId>, interruptions: nat, ghost c: Cluster,
                       ghost args: AppendEntriesArgs, ghost truncated: bool, ghost vs: seq<SegView>, ghost p: nat)
    returns (r: Result<RaftCore>, store': Store, ghost k: nat)
    requires Inv(c) && id in c.servers && c.servers[id].core.peers == peers
    requires store.Valid() && store.State() == c.servers[id].store
    requires Append(id, args) in c.net && Acceptable(c.servers[id], args)
    requires hardFile == c.servers[id].core.Interrupted(args, 0).hard
    requires CutOff(crc, codec, c.servers[id].core, args, truncated, vs, files, p)
    ensures k <= |args.entries| + 1 && r.Ok? && fresh(r.value) && fresh(store')
    ensures Runs(r.value, store', Restarted(Torn(c.servers[id], args, k)))
  {
    hide Inv, CutOff, RaftCore.Stored, Log.Synced, Node.Interrupted, Node.CanHandle, Node.Restart;
    SnapshotShared(c, id);
    store' := Reopen(store);
    r, k := RebootCutOff(id, peers, codec, crc, maxSegmentBytes, files, hardFile, store'.lastSnapshot, interruptions,
                         c.servers[id].core, args, truncated, vs, p);
  }

  lemma SnapshotShared(c: Cluster, i: NodeId)
    requires Inv(c) && i in c.servers
    ensures c.servers[i].store.lastSnapshot == c.servers[i].core.snapshot && c.servers[i].core.id == i
  {
    hide Inv, HistoryOk;
    ServerFacts(c, i);
  }
}
