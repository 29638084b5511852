/**
  Single steps of the cluster: what each does to the servers, and the messages it leaves.
*/
module Steps {
  import opened Types
  import opened Quorum
  import opened RaftNode
  import opened Cluster

  lemma TimesOut(c: Cluster, i: NodeId)
    requires i in c.servers
    ensures Takes(c, Timeout(i), Exec(c, Timeout(i)))
    ensures
      var c', s := Exec(c, Timeout(i)), c.servers[i];
      && c'.servers == c.servers[i := s.(core := s.core.BecomeCandidate().0, granted := {})] && c.net <= c'.net
      && forall p :: p in s.core.peers ==> VoteRequest(p, s.core.BecomeCandidate().1) in c'.net
  {
  }

  lemma Votes(c: Cluster, v: NodeId, args: RequestVoteArgs)
    requires v in c.servers && VoteRequest(v, args) in c.net
    ensures Takes(c, Deliver(VoteRequest(v, args)), Exec(c, Deliver(VoteRequest(v, args))))
    ensures
      var c', s := Exec(c, Deliver(VoteRequest(v, args))), c.servers[v];
      && c'.servers == c.servers[v := s.(core := s.core.HandleRequestVote(args).0)] && c.net <= c'.net
      && VoteReply(v, args.candidateId, args.term, s.core.HandleRequestVote(args).1) in c'.net
  {
  }

  function TakesOffice(n: Node): Node {
    n.BecomeLeader().AppendCommand(Noop).value.AdvanceCommitIndex()
  }

  lemma WinServers(c: Cluster, i: NodeId)
    requires i in c.servers
    ensures
      var c', s := Advance(LeaderAppend(Win(c, i), i, Noop), i), c.servers[i];
      c'.servers == c.servers[i := s.(core := TakesOffice(s.core))] && c'.net == c.net
  {
    hide Node.AdvanceCommitIndex;
  }

  // A vote counts, and wins the election if and only if more than half of the cluster has
  // then voted for the candidate.
  lemma VoteCounts(c: Cluster, i: NodeId, v: NodeId, m: Message)
    requires i in c.servers && c.servers[i].core.role == Candidate && m in c.net
    requires m == VoteReply(v, i, c.servers[i].Term(), RequestVoteReply(c.servers[i].Term(), true))
    ensures Takes(c, Deliver(m), Exec(c, Deliver(m))) && Exec(c, Deliver(m)).net == c.net
    ensures
      var s := c.servers[i];
      var granted := s.granted + {v};
      var n := if 2 * (1 + |granted|) > 1 + |s.core.peers| then TakesOffice(s.core) else s.core;
      Exec(c, Deliver(m)).servers == c.servers[i := s.(core := n, granted := granted)]
  {
    hide TakesOffice, Advance, LeaderAppend, Win, Majority;
    MajorityIff(1 + |c.servers[i].core.peers|, 1 + |c.servers[i].granted + {v}|);
    WinServers(c.Put(i, c.servers[i].(granted := c.servers[i].granted + {v})), i);
  }

  ghost predicate CanSend(n: Node, p: NodeId) {
    n.role == Leader && p in n.peers && n.NextFor(p) >= n.BaseIndex()
  }

  lemma Sends(c: Cluster, i: NodeId, p: NodeId)
    requires i in c.servers && CanSend(c.servers[i].core, p)
    ensures
      var c' := Exec(c, Replicate(i, p));
      && Takes(c, Replicate(i, p), c') && c'.servers == c.servers && c.net <= c'.net
      && Append(p, c.servers[i].core.BuildAppendEntries(p)) in c'.net
  {
    hide Node.BuildAppendEntries;
  }

  lemma Counts(c: Cluster, from: NodeId, i: NodeId, last: LogIndex, m: Message, n: Node)
    requires i in c.servers && c.servers[i].core.role == Leader && m in c.net
    requires m == AppendReply(from, i, c.servers[i].Term(), last, AppendEntriesReply(c.servers[i].Term(), true, 0))
    requires c.servers[i].core.RecordReply(from, last, m.appendReply).AdvanceCommitIndex() == n
    ensures Takes(c, Deliver(m), Exec(c, Deliver(m)))
    ensures Exec(c, Deliver(m)).servers == c.servers[i := c.servers[i].(core := n)]
  {
    hide Node.AdvanceCommitIndex;
  }

  lemma BacksOff(c: Cluster, from: NodeId, i: NodeId, last: LogIndex, m: Message, n: Node)
    requires i in c.servers && c.servers[i].core.role == Leader && m in c.net && m.AppendReply?
    requires !m.appendReply.success && m.appendReply.term == c.servers[i].Term()
    requires m == AppendReply(from, i, c.servers[i].Term(), last, m.appendReply)
    requires c.servers[i].core.RecordReply(from, last, m.appendReply) == n
    ensures
      var c' := Exec(c, Deliver(m));
      && Takes(c, Deliver(m), c') && c'.net == c.net
      && c'.servers == c.servers[i := c.servers[i].(core := n)]
  {
    hide Node.RecordReply;
  }

  lemma Applies(c: Cluster, i: NodeId)
    requires i in c.servers && c.servers[i].core.WellFormed()
    ensures
      var c' := Exec(c, ApplyCommitted(i));
      Takes(c, ApplyCommitted(i), c') && c'.servers == c.servers[i := Applied(c.servers[i])]
  {
    hide Applied;
  }

  lemma Proposes(c: Cluster, i: NodeId)
    requires i in c.servers && c.servers[i].core.role == Leader
    ensures
      var c', s := Exec(c, Propose(i, Noop)), c.servers[i];
      && Takes(c, Propose(i, Noop), c')
      && c'.servers == c.servers[i := s.(core := s.core.AppendCommand(Noop).value.AdvanceCommitIndex())]
  {
    hide Node.AdvanceCommitIndex;
  }

  // ---- a newer term ----

  // The node a newer term makes of `n`.
  function Deposed(n: Node, term: Term): Node {
    n.(role := Follower, leaderId := None, hard := HardState(term, None))
  }

  // A reply with a newer term makes its receiver, whatever it was, a follower of that term
  // without a vote, and does nothing else.
  lemma NewerTermDeposes(c: Cluster, m: Message)
    requires m in c.net && m.to in c.servers
    requires
      || (m.VoteReply? && m.voteReply.term > c.servers[m.to].Term())
      || (m.AppendReply? && m.appendReply.term > c.servers[m.to].Term())
    ensures Takes(c, Deliver(m), Exec(c, Deliver(m))) && Exec(c, Deliver(m)).net == c.net
    ensures
      var s, term := c.servers[m.to], if m.VoteReply? then m.voteReply.term else m.appendReply.term;
      Exec(c, Deliver(m)).servers == c.servers[m.to := s.(core := Deposed(s.core, term))]
  {
  }

  // Any other reply leaves the term alone, and a leader leading.
  lemma OtherRepliesKeepTerm(c: Cluster, m: Message)
    requires m in c.net && m.to in c.servers
    requires
      || (m.VoteReply? && m.voteReply.term <= c.servers[m.to].Term())
      || (m.AppendReply? && m.appendReply.term <= c.servers[m.to].Term())
    ensures Enabled(c, Deliver(m)) && m.to in Exec(c, Deliver(m)).servers
    ensures
      var s, s' := c.servers[m.to], Exec(c, Deliver(m)).servers[m.to];
      s'.core.hard == s.core.hard && (s.core.role == Leader ==> s'.core.role == Leader)
  {
    hide QuorumIndex;
  }
}
