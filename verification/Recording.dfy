/**
  The six ways a step extends the history, each shown to keep the history sound.
*/
module Recording {
  import opened Types
  import opened Cluster
  import opened Invariant
  import opened Growth

  // Elections, votes and acknowledgements survive growth that adds no new ones.
  lemma ElectionsKept(h: History, h': History, members: set<NodeId>)
    requires Grows(h, h') && ElectionsOk(h, members)
    requires h'.elections == h.elections && h'.leaderLog == h.leaderLog
    ensures ElectionsOk(h', members)
  {
    forall t | t in h'.elections ensures ElectionOk(h', members, t, h'.elections[t]) && LeaderLogOk(h', t) {
      assert ElectionOk(h, members, t, h.elections[t]) && LeaderLogOk(h, t);
      RootedKept(h, h', h'.leaderLog[t]);
    }
  }

  lemma VotesKept(h: History, h': History)
    requires Grows(h, h') && CampaignsOk(h) && VotesOk(h)
    ensures forall b :: b in h.campaigns ==> Rooted(h', h.campaigns[b])
    ensures forall b :: b in h.votes ==>
      && Rooted(h', h.votes[b].log)
      && Ballot(b.term, h.votes[b].candidate) in h'.campaigns
      && AtLeastAsRecent(h'.campaigns[Ballot(b.term, h.votes[b].candidate)], h.votes[b].log)
  {
    forall b | b in h.campaigns ensures Rooted(h', h.campaigns[b]) {
      RootedKept(h, h', h.campaigns[b]);
    }
    forall b | b in h.votes ensures Rooted(h', h.votes[b].log) {
      RootedKept(h, h', h.votes[b].log);
    }
  }

  lemma SameBallots(h: History, h': History)
    requires Grows(h, h') && CampaignsOk(h) && VotesOk(h)
    requires h'.campaigns == h.campaigns && h'.votes == h.votes
    ensures CampaignsOk(h') && VotesOk(h')
  {
    VotesKept(h, h');
  }

  lemma SameAcks(h: History, h': History, members: set<NodeId>)
    requires Grows(h, h') && AcksOk(h, members) && h'.acks == h.acks
    ensures AcksOk(h', members)
  {
    forall a | a in h'.acks ensures AckOk(h', members, a) {
      AckedKept(h, h', a);
    }
  }

  lemma AddCampaign(h: History, members: set<NodeId>, b: Ballot, log: Entries) returns (h': History)
    requires HistoryOk(h, members)
    requires b !in h.campaigns && Rooted(h, log) && TermsBelow(log, b.term)
    ensures h' == h.(campaigns := h.campaigns[b := log])
    ensures HistoryOk(h', members) && GrowsBy(h, h', b.node)
  {
    h' := h.(campaigns := h.campaigns[b := log]);
    CampaignsPlus(h, h', b, log);
    hide Grows, Rooted, CampaignsOk, VotesOk, ElectionsOk, AcksOk, VotesKeepAcks, CommitsOk;
    ElectionsKept(h, h', members);
    SameAcks(h, h', members);
    AckedVotesKept(h, h', members);
    CommitsKept(h, h', members);
  }

  lemma CampaignsPlus(h: History, h': History, b: Ballot, log: Entries)
    requires CampaignsOk(h) && VotesOk(h)
    requires b !in h.campaigns && Rooted(h, log) && TermsBelow(log, b.term)
    requires h' == h.(campaigns := h.campaigns[b := log])
    ensures GrowsBy(h, h', b.node) && CampaignsOk(h') && VotesOk(h')
  {
    assert GrowsBy(h, h', b.node);
    VotesKept(h, h');
    RootedKept(h, h', log);
  }

  // The acknowledged prefixes seen by old votes do not change when only campaigns,
  // elections, commits or the ends of leader logs are added.
  lemma AckedVotesKept(h: History, h': History, members: set<NodeId>)
    requires Grows(h, h') && AcksOk(h, members) && AcksOk(h', members) && VotesKeepAcks(h, members)
    requires h'.acks == h.acks && h'.votes == h.votes
    ensures VotesKeepAcks(h', members)
  {
    forall a, b | a in h'.acks && b in h'.votes ensures AckedAtVote(h', a, b) {
      assert AckedAtVote(h, a, b);
      OldPair(h, h', a, b);
    }
  }

  lemma OldPair(h: History, h': History, a: Ack, b: Ballot)
    requires Grows(h, h') && b in h.votes
    requires a.term in h.leaderLog && a.upTo <= |h.leaderLog[a.term]|
    requires a.term in h'.leaderLog && a.upTo <= |h'.leaderLog[a.term]|
    requires AckedAtVote(h, a, b)
    ensures AckedAtVote(h', a, b)
  {
    AckedKept(h, h', a);
    if Unbroken(h', Acked(h', a), a.term, b.term) {
      assert Unbroken(h, Acked(h, a), a.term, b.term);
    }
  }

  // The voter acknowledged `a` in an earlier term, and no leader since has lost it.
  ghost predicate AckBefore(h: History, a: Ack, b: Ballot)
    requires a.term in h.leaderLog && a.upTo <= |h.leaderLog[a.term]|
  {
    a.node == b.node && a.term < b.term && Unbroken(h, Acked(h, a), a.term, b.term)
  }

  lemma AddVote(h: History, members: set<NodeId>, b: Ballot, v: Vote) returns (h': History)
    requires HistoryOk(h, members)
    requires b !in h.votes && Rooted(h, v.log)
    requires Ballot(b.term, v.candidate) in h.campaigns
    requires AtLeastAsRecent(h.campaigns[Ballot(b.term, v.candidate)], v.log)
    requires b.term !in h.elections ==> forall a :: a in h.acks && AckBefore(h, a, b) ==> Acked(h, a) <= v.log
    ensures h' == h.(votes := h.votes[b := v])
    ensures HistoryOk(h', members) && GrowsBy(h, h', b.node)
  {
    h' := h.(votes := h.votes[b := v]);
    VotesPlus(h, h', b, v);
    hide Grows, Rooted, CampaignsOk, VotesOk, ElectionsOk, AcksOk, VotesKeepAcks, CommitsOk;
    ElectionsKept(h, h', members);
    SameAcks(h, h', members);
    AckedVotesPlus(h, h', members, b, v);
    CommitsKept(h, h', members);
  }

  lemma VotesPlus(h: History, h': History, b: Ballot, v: Vote)
    requires CampaignsOk(h) && VotesOk(h)
    requires b !in h.votes && h' == h.(votes := h.votes[b := v]) && Rooted(h, v.log)
    requires Ballot(b.term, v.candidate) in h.campaigns
    requires AtLeastAsRecent(h.campaigns[Ballot(b.term, v.candidate)], v.log)
    ensures GrowsBy(h, h', b.node) && CampaignsOk(h') && VotesOk(h')
  {
    assert GrowsBy(h, h', b.node);
    VotesKept(h, h');
    RootedKept(h, h', v.log);
  }

  lemma AckedVotesPlus(h: History, h': History, members: set<NodeId>, b: Ballot, v: Vote)
    requires Grows(h, h') && ElectionsOk(h, members)
    requires AcksOk(h, members) && AcksOk(h', members) && VotesKeepAcks(h, members)
    requires b !in h.votes && h' == h.(votes := h.votes[b := v])
    requires b.term !in h.elections ==> forall a :: a in h.acks && AckBefore(h, a, b) ==> Acked(h, a) <= v.log
    ensures VotesKeepAcks(h', members)
  {
    forall a, x | a in h'.acks && x in h'.votes ensures AckedAtVote(h', a, x) {
      if x == b {
        NewVotePair(h, h', members, a, b);
      } else {
        assert AckedAtVote(h, a, x);
        OldPair(h, h', a, x);
      }
    }
  }

  lemma NewVotePair(h: History, h': History, members: set<NodeId>, a: Ack, b: Ballot)
    requires ElectionsOk(h, members) && b !in h.votes && b in h'.votes
    requires h' == h.(votes := h.votes[b := h'.votes[b]])
    requires a.term in h.leaderLog && a.upTo <= |h.leaderLog[a.term]|
    requires b.term !in h.elections && AckBefore(h, a, b) ==> Acked(h, a) <= h'.votes[b].log
    ensures AckedAtVote(h', a, b)
  {
    if b.term in h.elections {
      assert ElectionOk(h, members, b.term, h.elections[b.term]);
      assert b.node !in h.elections[b.term].voters;
    }
    if Unbroken(h', Acked(h', a), a.term, b.term) {
      assert Unbroken(h, Acked(h, a), a.term, b.term);
    }
  }

  lemma AddElection(h: History, members: set<NodeId>, t: Term, e: Election) returns (h': History)
    requires HistoryOk(h, members) && t !in h.elections
    requires ElectionOk(h, members, t, e)
    ensures h' == h.(elections := h.elections[t := e], leaderLog := h.leaderLog[t := e.log])
    ensures HistoryOk(h', members) && GrowsBy(h, h', e.leader)
  {
    h' := h.(elections := h.elections[t := e], leaderLog := h.leaderLog[t := e.log]);
    ElectionsWith(h, h', members, t, e);
    hide Grows, CampaignsOk, VotesOk, ElectionsOk, ElectionOk, AcksOk, VotesKeepAcks, CommitsOk;
    SameBallots(h, h');
    SameAcks(h, h', members);
    AckedVotesKept(h, h', members);
    CommitsKept(h, h', members);
  }

  lemma ElectionsWith(h: History, h': History, members: set<NodeId>, t: Term, e: Election)
    requires CampaignsOk(h) && ElectionsOk(h, members) && t !in h.elections
    requires h' == h.(elections := h.elections[t := e], leaderLog := h.leaderLog[t := e.log])
    requires ElectionOk(h, members, t, e)
    ensures GrowsBy(h, h', e.leader) && ElectionsOk(h', members)
  {
    assert GrowsBy(h, h', e.leader);
    RootedKept(h, h', e.log);
    forall u | u in h'.elections && u != t ensures ElectionOk(h', members, u, h'.elections[u]) && LeaderLogOk(h', u) {
      assert ElectionOk(h, members, u, h.elections[u]) && LeaderLogOk(h, u);
      RootedKept(h, h', h.leaderLog[u]);
    }
  }

  lemma CommitsKept(h: History, h': History, members: set<NodeId>)
    requires Grows(h, h') && CommitsOk(h, members) && h'.commits == h.commits
    ensures CommitsOk(h', members)
  {
    forall cm | cm in h'.commits ensures CommitOk(h', members, cm) {
      assert CommitOk(h, members, cm);
      assert h.leaderLog[cm.term] <= h'.leaderLog[cm.term];
    }
  }

  lemma ExtendLeaderLog(h: History, members: set<NodeId>, t: Term, e: LogEntry) returns (h': History)
    requires HistoryOk(h, members) && t in h.elections && t in h.leaderLog
    requires e.term == t && e.index == |h.leaderLog[t]| + 1
    ensures h' == h.(leaderLog := h.leaderLog[t := h.leaderLog[t] + [e]])
    ensures HistoryOk(h', members) && GrowsBy(h, h', h.elections[t].leader)
  {
    h' := h.(leaderLog := h.leaderLog[t := h.leaderLog[t] + [e]]);
    ExtendGrows(h, h', t, e);
    hide Grows, CampaignsOk, VotesOk, ElectionsOk, AcksOk, VotesKeepAcks, CommitsOk;
    ElectionsExtended(h, h', members, t, e);
    SameBallots(h, h');
    SameAcks(h, h', members);
    AckedVotesKept(h, h', members);
    CommitsKept(h, h', members);
  }

  lemma ExtendGrows(h: History, h': History, t: Term, e: LogEntry)
    requires t in h.elections && t in h.leaderLog
    requires h' == h.(leaderLog := h.leaderLog[t := h.leaderLog[t] + [e]])
    ensures GrowsBy(h, h', h.elections[t].leader)
  {
  }

  lemma ElectionsExtended(h: History, h': History, members: set<NodeId>, t: Term, e: LogEntry)
    requires Grows(h, h') && ElectionsOk(h, members) && t in h.leaderLog
    requires e.term == t && e.index == |h.leaderLog[t]| + 1
    requires h' == h.(leaderLog := h.leaderLog[t := h.leaderLog[t] + [e]])
    ensures ElectionsOk(h', members)
  {
    forall u | u in h'.elections ensures ElectionOk(h', members, u, h'.elections[u]) && LeaderLogOk(h', u) {
      assert ElectionOk(h, members, u, h.elections[u]) && LeaderLogOk(h, u);
      RootedKept(h, h', h.leaderLog[u]);
      if u == t { RootedExtended(h', h.leaderLog[t], e); }
    }
  }

  lemma RootedExtended(h: History, l: Entries, e: LogEntry)
    requires Rooted(h, l) && e.term in h.leaderLog && e.index == |l| + 1
    requires h.leaderLog[e.term] == l + [e]
    ensures Rooted(h, l + [e])
  {
    forall k | 0 <= k < |l + [e]|
      ensures (l + [e])[k].index == k + 1 && (l + [e])[k].term in h.leaderLog
      ensures (l + [e])[..k + 1] <= h.leaderLog[(l + [e])[k].term]
    {
      if k < |l| { assert (l + [e])[..k + 1] == l[..k + 1]; }
    }
  }

  lemma AddAcks(h: History, members: set<NodeId>, i: NodeId, t: Term, n: LogIndex) returns (h': History)
    requires HistoryOk(h, members)
    requires i in members && t in h.leaderLog && n <= |h.leaderLog[t]|
    requires forall b :: b in h.votes && b.node == i ==> b.term <= t
    ensures h' == h.(acks := h.acks + AcksUpTo(i, t, n))
    ensures HistoryOk(h', members) && GrowsBy(h, h', i)
  {
    h' := h.(acks := h.acks + AcksUpTo(i, t, n));
    AcksPlus(h, h', members, i, t, n);
    hide Grows, CampaignsOk, VotesOk, ElectionsOk, AcksOk, VotesKeepAcks, CommitsOk;
    SameBallots(h, h');
    ElectionsKept(h, h', members);
    AckedVotesWith(h, h', members, i, t, n);
    CommitsKept(h, h', members);
  }

  lemma AcksPlus(h: History, h': History, members: set<NodeId>, i: NodeId, t: Term, n: LogIndex)
    requires AcksOk(h, members) && i in members && t in h.leaderLog && n <= |h.leaderLog[t]|
    requires h' == h.(acks := h.acks + AcksUpTo(i, t, n))
    ensures GrowsBy(h, h', i) && AcksOk(h', members)
  {
  }

  // Nobody who acknowledges in term `t` has voted in a later one.
  lemma AckedVotesWith(h: History, h': History, members: set<NodeId>, i: NodeId, t: Term, n: LogIndex)
    requires Grows(h, h') && AcksOk(h, members) && AcksOk(h', members) && VotesKeepAcks(h, members)
    requires h' == h.(acks := h.acks + AcksUpTo(i, t, n))
    requires forall b :: b in h.votes && b.node == i ==> b.term <= t
    ensures VotesKeepAcks(h', members)
  {
    forall a, b | a in h'.acks && b in h'.votes ensures AckedAtVote(h', a, b) {
      if a in h.acks {
        assert AckedAtVote(h, a, b);
        OldPair(h, h', a, b);
      }
    }
  }

  lemma AddCommit(h: History, members: set<NodeId>, cm: Commit) returns (h': History)
    requires HistoryOk(h, members) && CommitOk(h, members, cm)
    ensures h' == h.(commits := h.commits + {cm})
    ensures HistoryOk(h', members) && forall i :: GrowsBy(h, h', i)
  {
    h' := h.(commits := h.commits + {cm});
    CommitsPlus(h, h', members, cm);
    assert GrowsBy(h, h', 0);
    hide Grows, CampaignsOk, VotesOk, ElectionsOk, AcksOk, VotesKeepAcks, CommitsOk;
    SameBallots(h, h');
    ElectionsKept(h, h', members);
    SameAcks(h, h', members);
    AckedVotesKept(h, h', members);
  }

  lemma CommitsPlus(h: History, h': History, members: set<NodeId>, cm: Commit)
    requires CommitsOk(h, members) && CommitOk(h, members, cm)
    requires h' == h.(commits := h.commits + {cm})
    ensures (forall i :: GrowsBy(h, h', i)) && CommitsOk(h', members)
  {
    forall x | x in h'.commits ensures CommitOk(h', members, x) {
      assert CommitOk(h, members, x);
    }
  }
}
