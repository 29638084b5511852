/**
  Applying, snapshotting, compacting and restarting keep the invariant: they change how
  a server stores its log, never the log itself.
*/
module LocalSteps {
  import opened Types
  import opened RaftNode
  import opened StateMachine
  import opened LeaderRules
  import opened Cluster
  import opened Invariant
  import opened Growth
  import opened ElectionSteps

  // The same log laid out differently, in the same term and role.
  ghost predicate SameLog(s: Server, s': Server) {
    && s'.Log() == s.Log() && s'.core.hard == s.core.hard && s'.granted == s.granted
    && s'.core.role == s.core.role && s'.core.nextIndex == s.core.nextIndex && s'.core.matchIndex == s.core.matchIndex
  }

  lemma SameLogOk(h: History, members: set<NodeId>, i: NodeId, s: Server, s': Server)
    requires AcksOk(h, members) && ServerOk(h, members, i, s) && SameLog(s, s')
    ensures LogOk(h, s') && VoteOk(h, i, s') && RoleOk(h, members, i, s') && KeepsAcks(h, members, i, s')
  {
    AcksWithTerm(h, members, i, s, s');
  }

  // The batch is the unapplied part of the committed prefix, and applying it moves the
  // table from the applied to the committed prefix.
  lemma Batch(h: History, members: set<NodeId>, i: NodeId, s: Server)
    requires LayoutOk(members, i, s) && LogOk(h, s) && ProgressOk(h, s) && StoreOk(s)
    ensures
      var log, batch := s.Log(), s.core.Committed();
      && |batch| == s.core.commitIndex - s.core.lastApplied && s.core.commitIndex <= |log|
      && ApplyAll(s.store.table, batch) == Table(Fold(log[..s.core.commitIndex]), s.core.commitIndex)
  {
    hide Rooted, Covers, Fold, ApplyAll, Node.TermAt, Open;
    Views(members, i, s);
    RootedIndices(h, s.Log());
    BatchFeedsStore(s.core, s.Log());
  }

  lemma AppliedServer(h: History, members: set<NodeId>, i: NodeId, s: Server)
    requires AcksOk(h, members) && ServerOk(h, members, i, s)
    ensures ServerOk(h, members, i, Applied(s))
    ensures Applied(s).Log() == s.Log() && Applied(s).core.commitIndex == s.core.commitIndex
    ensures Applied(s).core.lastApplied == s.core.commitIndex
  {
    hide AcksOk, KeepsAcks, RoleOk, VoteOk, Covers, Rooted, Fold, ApplyAll, Node.Committed, Node.TermAt;
    Batch(h, members, i, s);
    var log, upTo := s.Log(), s.core.commitIndex;
    if s.core.lastApplied < upTo {
      var n := s.core.(lastApplied := upTo);
      var plain := s.(core := n, store := s.store.(table := Table(Fold(log[..upTo]), upTo)));
      assert plain.Log() == log;
      SameLogOk(h, members, i, s, plain);
      if plain.store.ShouldSnapshot() { Snapshotted(h, members, i, plain); }
    }
  }

  // The server after a snapshot at its applied index.
  function Compacted(s: Server): Server
    requires s.core.lastApplied <= |s.Log()|
  {
    var store := s.store.Snapshot(s.core.TermAt(s.core.lastApplied).GetOr(0));
    s.(core := s.core.Compact(store.lastSnapshot), store := store, dropped := s.Log()[..s.core.lastApplied])
  }

  lemma CompactedLayout(members: set<NodeId>, i: NodeId, s: Server)
    requires LayoutOk(members, i, s)
    requires s.store.table.lastApplied == s.core.lastApplied && |s.dropped| < s.core.lastApplied <= |s.Log()|
    ensures LayoutOk(members, i, Compacted(s)) && Compacted(s).Log() == s.Log()
  {
    var k, log := s.core.lastApplied, s.Log();
    Views(members, i, s);
    assert s.core.entries == log[|s.dropped|..];
    assert Compacted(s).core.entries == log[k..];
  }

  // Snapshotting at the applied index, with its true term, and compacting.
  lemma Snapshotted(h: History, members: set<NodeId>, i: NodeId, s: Server)
    requires AcksOk(h, members) && ServerOk(h, members, i, s)
    requires |s.dropped| < s.core.lastApplied
    ensures ServerOk(h, members, i, Compacted(s)) && Compacted(s).Log() == s.Log()
  {
    hide AcksOk, KeepsAcks, RoleOk, VoteOk, LogOk, Covers, Fold, LayoutOk;
    CompactedLayout(members, i, s);
    SameLogOk(h, members, i, s, Compacted(s));
  }

  lemma ApplyKeepsInv(c: Cluster, i: NodeId)
    requires Inv(c) && i in c.servers
    ensures c.servers[i].core.WellFormed() && Inv(c.Put(i, Applied(c.servers[i])))
  {
    hide MessageOk, CampaignsOk, VotesOk, ElectionsOk, AcksOk, VotesKeepAcks, CommitsOk,
      LogOk, VoteOk, RoleOk, KeepsAcks, ProgressOk, StoreOk, Applied;
    AppliedServer(c.hist, c.servers.Keys, i, c.servers[i]);
    StepKeepsInv(c, c.Put(i, Applied(c.servers[i])), i);
  }

  lemma RestartedServer(h: History, members: set<NodeId>, i: NodeId, s: Server)
    requires AcksOk(h, members) && ServerOk(h, members, i, s)
    ensures ServerOk(h, members, i, Restarted(s)) && Restarted(s).Log() == s.Log()
  {
    var s' := Restarted(s);
    assert s'.Log() == s.Log();
    AcksWithTerm(h, members, i, s, s');
    CommittedBelow(h, s.Log(), s.core.commitIndex, |s.dropped|, s.Term());
    assert s'.Log()[..|s.dropped|] == s.dropped;
  }

  lemma RestartKeepsInv(c: Cluster, i: NodeId)
    requires Inv(c) && i in c.servers
    ensures Inv(c.Put(i, Restarted(c.servers[i])))
  {
    hide MessageOk, CampaignsOk, VotesOk, ElectionsOk, AcksOk, VotesKeepAcks, CommitsOk, ServerOk, Restarted;
    RestartedServer(c.hist, c.servers.Keys, i, c.servers[i]);
    StepKeepsInv(c, c.Put(i, Restarted(c.servers[i])), i);
  }
}
