/**
  Campaigning, voting and winning keep the invariant.
*/
module ElectionSteps {
  import opened Types
  import opened Quorum
  import opened StateMachine
  import opened Cluster
  import opened Invariant
  import opened Growth
  import opened Recording

  // The core's queries describe the whole log.
  lemma Views(members: set<NodeId>, i: NodeId, s: Server)
    requires LayoutOk(members, i, s)
    ensures s.core.LastLogIndex() == |s.Log()|
    ensures s.core.LastLogTerm() == LastTerm(s.Log())
    ensures forall k: nat :: |s.dropped| <= k <= |s.Log()| ==> s.core.TermAt(k) == Some(TermBefore(s.Log(), k))
    ensures forall k: nat :: k < |s.dropped| || k > |s.Log()| ==> s.core.TermAt(k) == None
  {
  }

  // Adopting a term at least as new, as a follower.
  lemma SteppedDown(h: History, members: set<NodeId>, i: NodeId, s: Server, t: Term, leader: Option<NodeId>)
    requires AcksOk(h, members) && ServerOk(h, members, i, s) && t >= s.Term()
    ensures ServerOk(h, members, i, s.(core := s.core.BecomeFollower(t, leader)))
  {
    var s' := s.(core := s.core.BecomeFollower(t, leader));
    assert s'.Log() == s.Log() && s'.Term() == t;
    AcksWithTerm(h, members, i, s, s');
    CommittedKept(h, h, s.Log(), s.Log(), s.core.commitIndex, s.Term(), t);
  }

  // A server whose log is unchanged keeps its acknowledgements in a newer term.
  lemma AcksWithTerm(h: History, members: set<NodeId>, i: NodeId, s: Server, s': Server)
    requires AcksOk(h, members) && KeepsAcks(h, members, i, s)
    requires s'.Log() == s.Log() && s'.Term() >= s.Term()
    ensures KeepsAcks(h, members, i, s')
  {
    forall a | a in h.acks && a.node == i
      ensures a.term <= s'.Term()
      ensures Unbroken(h, Acked(h, a), a.term, s'.Term() + 1) ==> Acked(h, a) <= s'.Log()
    {
      if Unbroken(h, Acked(h, a), a.term, s'.Term() + 1) {
        assert Unbroken(h, Acked(h, a), a.term, s.Term() + 1);
      }
    }
  }

  // Recording the vote of the current term in hard state.
  function WithVote(s: Server, v: NodeId): Server {
    s.(core := s.core.(hard := HardState(s.Term(), Some(v))))
  }

  lemma CastVote(h: History, members: set<NodeId>, i: NodeId, s: Server, v: NodeId) returns (h': History)
    requires HistoryOk(h, members) && ServerOk(h, members, i, s)
    requires s.core.hard.votedFor == None
    requires Ballot(s.Term(), v) in h.campaigns
    requires AtLeastAsRecent(h.campaigns[Ballot(s.Term(), v)], s.Log())
    ensures h' == h.(votes := h.votes[Ballot(s.Term(), i) := Vote(v, s.Log())])
    ensures Ballot(s.Term(), i) !in h.votes
    ensures HistoryOk(h', members) && GrowsBy(h, h', i)
    ensures ServerOk(h', members, i, WithVote(s, v))
  {
    var b := Ballot(s.Term(), i);
    if b.term !in h.elections { AcksAtBallot(h, members, i, s); }
    h' := AddVote(h, members, b, Vote(v, s.Log()));
    VotedServer(h, h', members, i, s, v);
  }

  lemma VotedServer(h: History, h': History, members: set<NodeId>, i: NodeId, s: Server, v: NodeId)
    requires AcksOk(h, members) && AcksOk(h', members) && ServerOk(h, members, i, s)
    requires s.core.hard.votedFor == None
    requires Grows(h, h') && h' == h.(votes := h.votes[Ballot(s.Term(), i) := Vote(v, s.Log())])
    ensures ServerOk(h', members, i, WithVote(s, v))
  {
    var s' := WithVote(s, v);
    assert s'.Log() == s.Log();
    assert KeepsAcks(h, members, i, s');
    hide Rooted, Covers, AcksOk, KeepsAcks, Fold, VoteOk, RoleOk;
    VotedRole(h, h', members, i, s, v);
    RootedKept(h, h', s.Log());
    AcksWithHistory(h, h', members, i, s');
    CommittedKept(h, h', s.Log(), s.Log(), s.core.commitIndex, s.Term(), s.Term());
  }

  lemma VotedRole(h: History, h': History, members: set<NodeId>, i: NodeId, s: Server, v: NodeId)
    requires VoteOk(h, i, s) && RoleOk(h, members, i, s) && s.core.hard.votedFor == None
    requires h' == h.(votes := h.votes[Ballot(s.Term(), i) := Vote(v, s.Log())])
    ensures VoteOk(h', i, WithVote(s, v)) && RoleOk(h', members, i, WithVote(s, v))
  {
  }

  lemma AcksAtBallot(h: History, members: set<NodeId>, i: NodeId, s: Server)
    requires AcksOk(h, members) && KeepsAcks(h, members, i, s) && s.Term() !in h.elections
    ensures forall a :: a in h.acks && AckBefore(h, a, Ballot(s.Term(), i)) ==> Acked(h, a) <= s.Log()
  {
    forall a | a in h.acks && AckBefore(h, a, Ballot(s.Term(), i)) ensures Acked(h, a) <= s.Log() {
      assert Unbroken(h, Acked(h, a), a.term, s.Term() + 1);
    }
  }

  // Growth without new acknowledgements by `i` keeps the old ones.
  lemma AcksWithHistory(h: History, h': History, members: set<NodeId>, i: NodeId, s: Server)
    requires Grows(h, h') && AcksOk(h, members) && AcksOk(h', members) && KeepsAcks(h, members, i, s)
    requires forall a :: a in h'.acks && a.node == i ==> a in h.acks
    ensures KeepsAcks(h', members, i, s)
  {
    forall a | a in h'.acks && a.node == i
      ensures a.term <= s.Term()
      ensures Unbroken(h', Acked(h', a), a.term, s.Term() + 1) ==> Acked(h', a) <= s.Log()
    {
      AckedKept(h, h', a);
      if Unbroken(h', Acked(h', a), a.term, s.Term() + 1) {
        assert Unbroken(h, Acked(h, a), a.term, s.Term() + 1);
      }
    }
  }

  lemma CampaignKeepsInv(c: Cluster, i: NodeId)
    requires Inv(c) && i in c.servers
    ensures Inv(Campaign(c, i)) && Campaign(c, i).servers.Keys == c.servers.Keys
    ensures Grows(c.hist, Campaign(c, i).hist)
  {
    hide HistoryOk, LogOk, VoteOk, RoleOk, KeepsAcks, ProgressOk, StoreOk, MessageOk, GrowsBy;
    var s, members, c' := c.servers[i], c.servers.Keys, Campaign(c, i);
    var h' := CampaignHistory(c.hist, members, i, s, c'.servers[i]);
    assert h' == c'.hist;
    CampaignMessages(h', members, i, s);
    StepKeepsInv(c, c', i);
  }

  lemma CampaignMessages(h: History, members: set<NodeId>, i: NodeId, s: Server)
    requires LayoutOk(members, i, s)
    requires Ballot(s.Term() + 1, i) in h.campaigns && h.campaigns[Ballot(s.Term() + 1, i)] == s.Log()
    ensures forall p :: p in s.core.peers ==> MessageOk(h, members, VoteRequest(p, s.core.BecomeCandidate().1))
  {
    Views(members, i, s);
  }

  lemma CampaignHistory(h: History, members: set<NodeId>, i: NodeId, s: Server, s': Server) returns (h': History)
    requires HistoryOk(h, members) && ServerOk(h, members, i, s)
    requires s' == s.(core := s.core.BecomeCandidate().0, granted := {})
    ensures h' == h.(campaigns := h.campaigns[Ballot(s'.Term(), i) := s.Log()],
                     votes := h.votes[Ballot(s'.Term(), i) := Vote(i, s.Log())])
    ensures HistoryOk(h', members) && GrowsBy(h, h', i) && ServerOk(h', members, i, s')
  {
    assert s.core.id == i && s'.Log() == s.Log();
    var t := s.Term() + 1;
    hide Rooted, CampaignsOk, VotesOk, VotesKeepAcks, ElectionsOk, CommitsOk, AcksOk, KeepsAcks, ProgressOk, StoreOk,
      VoteOk, RoleOk;
    FirstBallot(h, members, i, s);
    var down := s.(core := s.core.BecomeFollower(t, None));
    SteppedDown(h, members, i, s, t, None);
    hide ServerOk, HistoryOk, GrowsBy;
    h' := OwnVote(h, members, i, down);
    AcksOf(h', members);
    CampaignServer(h', members, i, WithVote(down, i), s');
  }

  // Nothing is on record yet of the next term.
  lemma FirstBallot(h: History, members: set<NodeId>, i: NodeId, s: Server)
    requires VoteOk(h, i, s) && RoleOk(h, members, i, s)
    ensures
      var t := s.Term() + 1;
      (t in h.elections ==> h.elections[t].leader != i) && Ballot(t, i) !in h.campaigns
  {
  }

  // Campaign and vote for oneself, as a follower that has just moved to a new term.
  lemma OwnVote(h: History, members: set<NodeId>, i: NodeId, down: Server) returns (h': History)
    requires HistoryOk(h, members) && ServerOk(h, members, i, down) && down.core.role == Follower
    requires down.core.hard.votedFor == None && TermsBelow(down.Log(), down.Term())
    requires Ballot(down.Term(), i) !in h.campaigns
    ensures h' == h.(campaigns := h.campaigns[Ballot(down.Term(), i) := down.Log()],
                     votes := h.votes[Ballot(down.Term(), i) := Vote(i, down.Log())])
    ensures HistoryOk(h', members) && GrowsBy(h, h', i) && ServerOk(h', members, i, WithVote(down, i))
  {
    hide Rooted, CampaignsOk, VotesOk, VotesKeepAcks, CommitsOk, ElectionOk, LeaderLogOk, AcksOk, KeepsAcks;
    var h1 := AddCampaign(h, members, Ballot(down.Term(), i), down.Log());
    CampaignRecorded(h, h1, members, i, down);
    h' := CastVote(h1, members, i, down, i);
    GrowsTwice(h, h1, h', i);
  }

  lemma CampaignRecorded(h: History, h': History, members: set<NodeId>, i: NodeId, s: Server)
    requires AcksOk(h, members) && AcksOk(h', members) && ServerOk(h, members, i, s) && s.core.role == Follower
    requires h' == h.(campaigns := h.campaigns[Ballot(s.Term(), i) := s.Log()]) && Grows(h, h')
    ensures ServerOk(h', members, i, s)
  {
    RootedKept(h, h', s.Log());
    AcksWithHistory(h, h', members, i, s);
    CommittedKept(h, h', s.Log(), s.Log(), s.core.commitIndex, s.Term(), s.Term());
  }

  lemma CampaignServer(h: History, members: set<NodeId>, i: NodeId, voted: Server, s: Server)
    requires AcksOk(h, members) && ServerOk(h, members, i, voted) && voted.core.hard.votedFor == Some(i)
    requires s == voted.(core := voted.core.(role := Candidate, leaderId := None), granted := {})
    requires Ballot(s.Term(), i) in h.campaigns && h.campaigns[Ballot(s.Term(), i)] == s.Log()
    requires s.Term() in h.elections ==> h.elections[s.Term()].leader != i
    ensures ServerOk(h, members, i, s)
  {
    assert s.Log() == voted.Log();
    AcksWithTerm(h, members, i, voted, s);
  }

  // ---- RequestVote ----

  // The history after the vote request, as the step records it.
  function VoteRecorded(h: History, i: NodeId, s: Server, args: RequestVoteArgs): History {
    if s.core.HandleRequestVote(args).1.voteGranted && Ballot(args.term, i) !in h.votes
    then h.(votes := h.votes[Ballot(args.term, i) := Vote(args.candidateId, s.Log())])
    else h
  }

  lemma VoteRequestKeepsInv(c: Cluster, i: NodeId, args: RequestVoteArgs)
    requires Inv(c) && i in c.servers && VoteRequest(i, args) in c.net
    ensures Inv(OnVoteRequest(c, i, args)) && OnVoteRequest(c, i, args).servers.Keys == c.servers.Keys
    ensures Grows(c.hist, OnVoteRequest(c, i, args).hist)
  {
    hide HistoryOk, ServerOk, MessageOk, GrowsBy;
    VoteRequestHandled(c.hist, c.servers.Keys, i, c.servers[i], args);
    StepKeepsInv(c, OnVoteRequest(c, i, args), i);
  }

  lemma VoteRequestHandled(h: History, members: set<NodeId>, i: NodeId, s: Server, args: RequestVoteArgs)
    requires HistoryOk(h, members) && i in members && ServerOk(h, members, i, s)
    requires MessageOk(h, members, VoteRequest(i, args))
    ensures
      var (n, reply) := s.core.HandleRequestVote(args);
      var h' := VoteRecorded(h, i, s, args);
      && HistoryOk(h', members) && GrowsBy(h, h', i)
      && ServerOk(h', members, i, s.(core := n))
      && MessageOk(h', members, VoteReply(i, args.candidateId, args.term, reply))
  {
    hide HistoryOk, LogOk, RoleOk, KeepsAcks, ProgressOk, StoreOk;
    if args.term >= s.Term() {
      var current := if args.term > s.Term() then s.(core := s.core.BecomeFollower(args.term, None)) else s;
      assert AcksOk(h, members) by { AcksOf(h, members); }
      if args.term > s.Term() { SteppedDown(h, members, i, s, args.term, None); }
      assert current.Log() == s.Log();
      Views(members, i, current);
      var granted := s.core.HandleRequestVote(args).1.voteGranted;
      if granted && current.core.hard.votedFor == None {
        var h' := CastVote(h, members, i, current, args.candidateId);
      }
    }
  }

  lemma AcksOf(h: History, members: set<NodeId>)
    requires HistoryOk(h, members)
    ensures AcksOk(h, members) && ElectionsOk(h, members) && CampaignsOk(h)
  {
  }

  // ---- vote replies ----

  lemma StepDownKeepsInv(c: Cluster, i: NodeId, t: Term)
    requires Inv(c) && i in c.servers && t >= c.servers[i].Term()
    ensures Inv(c.Put(i, c.servers[i].(core := c.servers[i].core.BecomeFollower(t, None))))
  {
    hide ServerOk, MessageOk, CampaignsOk, VotesOk, ElectionsOk, AcksOk, VotesKeepAcks, CommitsOk;
    var s := c.servers[i];
    SteppedDown(c.hist, c.servers.Keys, i, s, t, None);
    StepKeepsInv(c, c.Put(i, s.(core := s.core.BecomeFollower(t, None))), i);
  }

  lemma CountedKeepsInv(c: Cluster, from: NodeId, i: NodeId, t: Term, reply: RequestVoteReply)
    requires Inv(c) && i in c.servers && VoteReply(from, i, t, reply) in c.net
    requires reply.voteGranted && c.servers[i].core.role == Candidate && c.servers[i].Term() == t
    ensures Inv(c.Put(i, c.servers[i].(granted := c.servers[i].granted + {from})))
  {
    hide Rooted, MessageOk, CampaignsOk, VotesOk, ElectionsOk, AcksOk, VotesKeepAcks, CommitsOk;
    var s := c.servers[i];
    CountedServer(c.hist, c.servers.Keys, from, i, s, reply);
    StepKeepsInv(c, c.Put(i, s.(granted := s.granted + {from})), i);
  }

  lemma CountedServer(h: History, members: set<NodeId>, from: NodeId, i: NodeId, s: Server, reply: RequestVoteReply)
    requires AcksOk(h, members) && ServerOk(h, members, i, s)
    requires MessageOk(h, members, VoteReply(from, i, s.Term(), reply)) && reply.voteGranted
    requires s.core.role == Candidate
    ensures ServerOk(h, members, i, s.(granted := s.granted + {from}))
  {
    AcksWithTerm(h, members, i, s, s.(granted := s.granted + {from}));
  }

  // A candidate with a majority of votes is the first to win its term.
  lemma NoRival(h: History, members: set<NodeId>, i: NodeId, s: Server)
    requires ElectionsOk(h, members) && CandidateOk(h, members, i, s) && VoteOk(h, i, s) && i in members
    requires 1 + |s.granted| >= Majority(|members|)
    ensures s.Term() !in h.elections
    ensures ElectionOk(h, members, s.Term(), Election(i, s.Log(), s.granted + {i}))
  {
    var t, voters := s.Term(), s.granted + {i};
    assert Ballot(t, i) in h.votes;
    if t in h.elections {
      assert ElectionOk(h, members, t, h.elections[t]);
      var w := MajoritiesMeet(members, h.elections[t].voters, voters);
      assert false;
    }
  }

  lemma PeerCount(members: set<NodeId>, i: NodeId, peers: seq<NodeId>)
    requires PeersOf(peers, members, i) && i in members
    ensures |peers| + 1 == |members|
  {
    DistinctSize(peers);
    assert members == {i} + set p | p in peers;
  }

  lemma WinKeepsInv(c: Cluster, i: NodeId)
    requires Inv(c) && i in c.servers && c.servers[i].core.role == Candidate
    requires 1 + |c.servers[i].granted| >= c.servers[i].core.Quorum()
    ensures Inv(Win(c, i)) && Win(c, i).servers.Keys == c.servers.Keys
    ensures Grows(c.hist, Win(c, i).hist)
  {
    hide HistoryOk, ServerOk, MessageOk, GrowsBy;
    var h' := Won(c.hist, c.servers.Keys, i, c.servers[i]);
    assert h' == Win(c, i).hist;
    StepKeepsInv(c, Win(c, i), i);
  }

  lemma Won(h: History, members: set<NodeId>, i: NodeId, s: Server) returns (h': History)
    requires HistoryOk(h, members) && i in members && ServerOk(h, members, i, s)
    requires s.core.role == Candidate && 1 + |s.granted| >= s.core.Quorum()
    ensures h' == h.(elections := h.elections[s.Term() := Election(i, s.Log(), s.granted + {i})],
                     leaderLog := h.leaderLog[s.Term() := s.Log()],
                     acks := h.acks + AcksUpTo(i, s.Term(), |s.Log()|))
    ensures HistoryOk(h', members) && GrowsBy(h, h', i)
    ensures ServerOk(h', members, i, s.(core := s.core.BecomeLeader()))
  {
    hide Rooted, CampaignsOk, VotesOk, VotesKeepAcks, CommitsOk, ElectionOk, LeaderLogOk, AcksOk, KeepsAcks;
    PeerCount(members, i, s.core.peers);
    NoRival(h, members, i, s);
    var h1 := AddElection(h, members, s.Term(), Election(i, s.Log(), s.granted + {i}));
    h' := AddAcks(h1, members, i, s.Term(), |s.Log()|);
    GrowsTwice(h, h1, h', i);
    WonServer(h, h', members, i, s);
  }

  lemma WonServer(h: History, h': History, members: set<NodeId>, i: NodeId, s: Server)
    requires AcksOk(h, members) && AcksOk(h', members) && GrowsBy(h, h', i) && ServerOk(h, members, i, s)
    requires s.core.role == Candidate && s.Term() !in h.leaderLog
    requires h' == h.(elections := h.elections[s.Term() := Election(i, s.Log(), s.granted + {i})],
                      leaderLog := h.leaderLog[s.Term() := s.Log()],
                      acks := h.acks + AcksUpTo(i, s.Term(), |s.Log()|))
    ensures ServerOk(h', members, i, s.(core := s.core.BecomeLeader()))
  {
    var s' := s.(core := s.core.BecomeLeader());
    assert s'.Log() == s.Log() && s'.Term() == s.Term();
    WonRole(h, h', members, i, s);
    hide Rooted, Covers, KeepsAcks, AcksOk, Unbroken, Fold, RoleOk;
    RootedKept(h, h', s.Log());
    OwnAcks(h, h', members, i, s, s');
    CommittedKept(h, h', s.Log(), s.Log(), s.core.commitIndex, s.Term(), s.Term());
  }

  lemma WonRole(h: History, h': History, members: set<NodeId>, i: NodeId, s: Server)
    requires LayoutOk(members, i, s) && RoleOk(h, members, i, s)
    requires h' == h.(elections := h.elections[s.Term() := Election(i, s.Log(), s.granted + {i})],
                      leaderLog := h.leaderLog[s.Term() := s.Log()],
                      acks := h.acks + AcksUpTo(i, s.Term(), |s.Log()|))
    ensures RoleOk(h', members, i, s.(core := s.core.BecomeLeader()))
  {
    Views(members, i, s);
    hide CandidateOk;
    var s' := s.(core := s.core.BecomeLeader());
    assert s'.Log() == s.Log() && s'.Term() == s.Term();
    assert LeaderOk(h', i, s');
  }

  // Acknowledging one's own log: every acknowledged prefix is one of it.
  lemma OwnAcks(h: History, h': History, members: set<NodeId>, i: NodeId, s: Server, s': Server)
    requires Grows(h, h') && AcksOk(h, members) && AcksOk(h', members) && KeepsAcks(h, members, i, s)
    requires s'.Term() == s.Term() && s.Log() <= s'.Log()
    requires s.Term() in h'.leaderLog && h'.leaderLog[s.Term()] == s'.Log()
    requires h'.acks == h.acks + AcksUpTo(i, s.Term(), |s'.Log()|)
    ensures KeepsAcks(h', members, i, s')
  {
    forall a | a in h'.acks && a.node == i
      ensures a.term <= s'.Term()
      ensures Unbroken(h', Acked(h', a), a.term, s'.Term() + 1) ==> Acked(h', a) <= s'.Log()
    {
      if a in h.acks {
        AckedKept(h, h', a);
        if Unbroken(h', Acked(h', a), a.term, s'.Term() + 1) {
          assert Unbroken(h, Acked(h, a), a.term, s.Term() + 1);
        }
      }
    }
  }
}
