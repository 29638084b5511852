/**
  Appending, replicating and committing keep the invariant.
*/
module ReplicationSteps {
  import opened Types
  import opened Quorum
  import opened RaftNode
  import opened StateMachine
  import opened Cluster
  import opened Invariant
  import opened Growth
  import opened Recording
  import opened ElectionSteps

  // ---- the leader appends ----

  lemma LeaderAppendKeepsInv(c: Cluster, i: NodeId, command: Command)
    requires Inv(c) && i in c.servers && c.servers[i].core.role == Leader
    ensures Inv(LeaderAppend(c, i, command)) && LeaderAppend(c, i, command).servers.Keys == c.servers.Keys
    ensures Grows(c.hist, LeaderAppend(c, i, command).hist)
  {
    hide HistoryOk, ServerOk, MessageOk, GrowsBy;
    var h' := Appended(c.hist, c.servers.Keys, i, c.servers[i], command);
    assert h' == LeaderAppend(c, i, command).hist;
    StepKeepsInv(c, LeaderAppend(c, i, command), i);
  }

  lemma Appended(h: History, members: set<NodeId>, i: NodeId, s: Server, command: Command) returns (h': History)
    requires HistoryOk(h, members) && i in members && ServerOk(h, members, i, s) && s.core.role == Leader
    ensures
      var s' := s.(core := s.core.AppendCommand(command).value);
      && h' == h.(leaderLog := h.leaderLog[s.Term() := s'.Log()],
                  acks := h.acks + AcksUpTo(i, s.Term(), |s'.Log()|))
      && HistoryOk(h', members) && GrowsBy(h, h', i)
      && ServerOk(h', members, i, s')
  {
    hide Rooted, CampaignsOk, VotesOk, VotesKeepAcks, CommitsOk, ElectionOk, LeaderLogOk, AcksOk, KeepsAcks;
    var s' := s.(core := s.core.AppendCommand(command).value);
    Views(members, i, s);
    var e := LogEntry(s.Term(), |s.Log()| + 1, command);
    assert s'.Log() == s.Log() + [e];
    var h1 := ExtendLeaderLog(h, members, s.Term(), e);
    h' := AddAcks(h1, members, i, s.Term(), |s'.Log()|);
    GrowsTwice(h, h1, h', i);
    AppendedServer(h, h', members, i, s, s', e);
  }

  lemma AppendedServer(h: History, h': History, members: set<NodeId>, i: NodeId, s: Server, s': Server, e: LogEntry)
    requires AcksOk(h, members) && AcksOk(h', members) && GrowsBy(h, h', i) && ServerOk(h, members, i, s)
    requires s.core.role == Leader && s' == s.(core := s.core.(entries := s.core.entries + [e]))
    requires e.term == s.Term() && e.index == |s.Log()| + 1 && s'.Log() == s.Log() + [e]
    requires h' == h.(leaderLog := h.leaderLog[s.Term() := s'.Log()],
                      acks := h.acks + AcksUpTo(i, s.Term(), |s'.Log()|))
    ensures ServerOk(h', members, i, s')
  {
    hide Rooted, Covers, KeepsAcks, AcksOk, Unbroken, Fold;
    RootedKept(h, h', s.Log());
    RootedExtended(h', s.Log(), e);
    OwnAcks(h, h', members, i, s, s');
    CommittedKept(h, h', s.Log(), s'.Log(), s.core.commitIndex, s.Term(), s.Term());
    assert s'.Log()[..s.core.lastApplied] == s.Log()[..s.core.lastApplied];
  }

  // ---- the commit rule ----

  // The nodes counted by the commit rule are distinct nodes.
  lemma {:induction false} CountIsSize(n: Node, ps: seq<NodeId>, v: nat)
    requires forall a, b :: 0 <= a < b < |ps| ==> ps[a] != ps[b]
    ensures CountGE(n.MatchesOf(ps), v) == |Matched(n, ps, v)|
  {
    if ps != [] {
      CountIsSize(n, ps[1..], v);
      assert n.MatchesOf(ps)[1..] == n.MatchesOf(ps[1..]);
      MatchedStep(n, ps, v);
      hide Matched;
    }
  }

  ghost function Matched(n: Node, ps: seq<NodeId>, v: nat): set<NodeId> {
    set p | p in ps && n.MatchOf(p) >= v
  }

  lemma MatchedStep(n: Node, ps: seq<NodeId>, v: nat)
    requires ps != [] && forall a, b :: 0 <= a < b < |ps| ==> ps[a] != ps[b]
    ensures ps[0] !in Matched(n, ps[1..], v)
    ensures
      var rest := Matched(n, ps[1..], v);
      Matched(n, ps, v) == if n.MatchOf(ps[0]) >= v then {ps[0]} + rest else rest
  {
    hide Node.MatchOf;
  }

  // The values the commit rule counts are the nodes that have reached the index.
  lemma CountIsReached(members: set<NodeId>, i: NodeId, s: Server, v: LogIndex)
    requires LayoutOk(members, i, s) && i in members && v <= |s.Log()|
    ensures CountGE(s.core.Matches(), v) == |Reached(s.core, v)| && Reached(s.core, v) <= members
    ensures s.core.Quorum() == Majority(|members|)
  {
    var n := s.core;
    PeerCount(members, i, n.peers);
    CountIsSize(n, n.peers, v);
    CountConcat(n.MatchesOf(n.peers), [n.LastLogIndex()], v);
    Views(members, i, s);
    var others := set p | p in n.peers && n.MatchOf(p) >= v;
    assert CountGE([n.LastLogIndex()], v) == 1;
    assert Reached(n, v) == {i} + others && i !in others;
  }

  // What the commit rule calls a quorum is more than half of the cluster.
  lemma QuorumIsMajority(members: set<NodeId>, i: NodeId, s: Server, v: LogIndex)
    requires LayoutOk(members, i, s) && i in members && v <= |s.Log()|
    ensures CountGE(s.core.Matches(), v) >= s.core.Quorum() <==> 2 * |Reached(s.core, v)| > |members|
  {
    hide Reached, CountGE, Node.Matches, Majority;
    CountIsReached(members, i, s, v);
    MajorityIff(|members|, |Reached(s.core, v)|);
  }

  // What the commit rule picked has been reached by a majority of the nodes.
  lemma PickedByMajority(members: set<NodeId>, i: NodeId, s: Server, v: LogIndex)
    requires LayoutOk(members, i, s) && i in members && v <= |s.Log()|
    requires CountGE(s.core.Matches(), v) >= s.core.Quorum()
    ensures Reached(s.core, v) <= members && |Reached(s.core, v)| >= Majority(|members|)
  {
    hide Reached, CountGE, Node.Matches;
    CountIsReached(members, i, s, v);
  }

  lemma AdvanceKeepsInv(c: Cluster, i: NodeId)
    requires Inv(c) && i in c.servers && c.servers[i].core.role == Leader
    ensures Inv(Advance(c, i)) && Advance(c, i).servers.Keys == c.servers.Keys
    ensures Grows(c.hist, Advance(c, i).hist)
  {
    hide HistoryOk, ServerOk, MessageOk, GrowsBy;
    var s := c.servers[i];
    if s.core.AdvanceCommitIndex().commitIndex > s.core.commitIndex {
      var h' := Advanced(c.hist, c.servers.Keys, i, s);
      assert h' == Advance(c, i).hist;
      StepKeepsInv(c, Advance(c, i), i);
    } else {
      assert Advance(c, i) == c.(servers := c.servers[i := s]);
      assert c.servers[i := s] == c.servers;
    }
  }

  lemma Advanced(h: History, members: set<NodeId>, i: NodeId, s: Server) returns (h': History)
    requires HistoryOk(h, members) && i in members && ServerOk(h, members, i, s) && s.core.role == Leader
    requires s.core.AdvanceCommitIndex().commitIndex > s.core.commitIndex
    ensures
      var n := s.core.AdvanceCommitIndex();
      && h' == h.(commits := h.commits + {Commit(s.Term(), n.commitIndex, Reached(n, n.commitIndex))})
      && HistoryOk(h', members) && GrowsBy(h, h', i)
      && ServerOk(h', members, i, s.(core := n))
  {
    hide Rooted, CampaignsOk, VotesOk, VotesKeepAcks, CommitsOk, ElectionOk, LeaderLogOk, AcksOk, KeepsAcks, Reached;
    var n := s.core.AdvanceCommitIndex();
    var cm := Commit(s.Term(), n.commitIndex, Reached(s.core, n.commitIndex));
    MajorityAcked(h, members, i, s, n.commitIndex);
    SameReached(s.core, n, n.commitIndex);
    h' := AddCommit(h, members, cm);
    assert GrowsBy(h, h', i);
    AdvancedServer(h, h', members, i, s, cm);
  }

  lemma SameReached(n: Node, m: Node, v: LogIndex)
    requires m == n.(commitIndex := m.commitIndex)
    ensures Reached(m, v) == Reached(n, v)
  {
  }

  lemma MajorityAcked(h: History, members: set<NodeId>, i: NodeId, s: Server, v: LogIndex)
    requires AcksOk(h, members) && i in members && LayoutOk(members, i, s) && LeaderOk(h, i, s)
    requires |s.dropped| < v && s.core.TermAt(v) == Some(s.Term())
    requires CountGE(s.core.Matches(), v) >= s.core.Quorum()
    ensures CommitOk(h, members, Commit(s.Term(), v, Reached(s.core, v)))
  {
    Views(members, i, s);
    PickedByMajority(members, i, s, v);
    forall w | w in Reached(s.core, v) ensures Ack(w, s.Term(), v) in h.acks {
      var a := if w == i then Ack(i, s.Term(), |s.Log()|) else Ack(w, s.Term(), s.core.matchIndex[w]);
      assert a in h.acks && v <= a.upTo;
    }
  }

  lemma AdvancedServer(h: History, h': History, members: set<NodeId>, i: NodeId, s: Server, cm: Commit)
    requires AcksOk(h, members) && AcksOk(h', members) && ServerOk(h, members, i, s) && s.core.role == Leader
    requires Grows(h, h') && h' == h.(commits := h.commits + {cm})
    requires cm.term == s.Term() && s.core.commitIndex <= cm.index <= |s.Log()|
    ensures ServerOk(h', members, i, s.(core := s.core.(commitIndex := cm.index)))
  {
    var s' := s.(core := s.core.(commitIndex := cm.index));
    assert s'.Log() == s.Log();
    RootedKept(h, h', s.Log());
    AcksWithTerm(h, members, i, s, s');
    AcksWithHistory(h, h', members, i, s');
    assert Covers(h', cm, s'.Log(), cm.index, s'.Term());
  }

  // ---- the leader sends ----

  lemma ReplicateKeepsInv(c: Cluster, i: NodeId, peer: NodeId)
    requires Inv(c) && Enabled(c, Replicate(i, peer))
    ensures Inv(Exec(c, Replicate(i, peer)))
  {
    hide HistoryOk, AcksOk, KeepsAcks, Rooted, StoreOk, VoteOk, AppendOk;
    BuiltMessageOk(c.hist, c.servers.Keys, i, c.servers[i], peer);
    assert MessageOk(c.hist, c.servers.Keys, Append(peer, c.servers[i].core.BuildAppendEntries(peer)));
  }

  // A message carries the whole tail of the leader's log, so it covers its commit index.
  lemma BuiltMessageOk(h: History, members: set<NodeId>, i: NodeId, s: Server, peer: NodeId)
    requires LayoutOk(members, i, s) && LeaderOk(h, i, s) && ProgressOk(h, s)
    requires peer in s.core.peers && s.core.NextFor(peer) >= s.core.BaseIndex()
    ensures AppendOk(h, peer, s.core.BuildAppendEntries(peer))
    ensures s.core.BuildAppendEntries(peer).LastSent() == |s.Log()|
  {
    Views(members, i, s);
    var args := s.core.BuildAppendEntries(peer);
    assert args.entries == s.Log()[args.prevLogIndex..];
  }

  // ---- the leader folds in a reply ----

  lemma RecordReplyKeepsInv(c: Cluster, from: NodeId, i: NodeId, t: Term, lastSent: LogIndex, reply: AppendEntriesReply)
    requires Inv(c) && i in c.servers && AppendReply(from, i, t, lastSent, reply) in c.net
    requires c.servers[i].core.role == Leader && c.servers[i].Term() == t
    ensures Inv(c.Put(i, c.servers[i].(core := c.servers[i].core.RecordReply(from, lastSent, reply))))
  {
    hide Rooted, MessageOk, CampaignsOk, VotesOk, ElectionsOk, AcksOk, VotesKeepAcks, CommitsOk, ServerOk;
    var s := c.servers[i];
    RecordedServer(c.hist, c.servers.Keys, from, i, s, lastSent, reply);
    StepKeepsInv(c, c.Put(i, s.(core := s.core.RecordReply(from, lastSent, reply))), i);
  }

  lemma RecordedServer(h: History, members: set<NodeId>, from: NodeId, i: NodeId, s: Server,
                       lastSent: LogIndex, reply: AppendEntriesReply)
    requires AcksOk(h, members) && ServerOk(h, members, i, s) && s.core.role == Leader
    requires MessageOk(h, members, AppendReply(from, i, s.Term(), lastSent, reply))
    ensures ServerOk(h, members, i, s.(core := s.core.RecordReply(from, lastSent, reply)))
  {
    var s' := s.(core := s.core.RecordReply(from, lastSent, reply));
    assert s'.Log() == s.Log();
    AcksWithTerm(h, members, i, s, s');
    if reply.success { assert AckOk(h, members, Ack(from, s.Term(), lastSent)); }
  }
}
