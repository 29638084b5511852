/**
  Elections over runs: who gets a vote, who can always be elected, and what deposes a leader
  that has been overtaken.
*/
module Elections {
  import opened Types
  import opened Quorum
  import opened RaftNode
  import opened StateMachine
  import opened Cluster
  import opened Invariant
  import opened ElectionSteps
  import opened Safety
  import opened Theorems
  import opened LeaderRules
  import opened HandlerRules
  import opened Steps

  // ---- stale leaders ----

  // Delivering a message of an older term and then its answer: the sender ends in the
  // receiver's term or a later one, and as a follower if it was still behind.
  lemma StaleLeaderDeposed(run: seq<Cluster>, c: Cluster, i: NodeId, j: NodeId, args: AppendEntriesArgs)
    returns (c1: Cluster, c2: Cluster)
    requires Reaches(run, c) && i in c.servers && j in c.servers
    requires Append(j, args) in c.net && args.leaderId == i && args.term < c.servers[j].Term()
    ensures Reaches(run + [c1] + [c2], c2) && i in c2.servers
    ensures
      var s, s', t := c.servers[i], c2.servers[i], c.servers[j].Term();
      s'.Term() == Max(s.Term(), t) && (s.Term() < t ==> s'.core.role == Follower)
  {
    hide Reaches, Inv, Exec, Enabled, OnAppend, Contiguous, Node.HandleAppendEntries, Node.CanHandle;
    ReachesInv(run, c);
    DeliverAllowed(c, j, args);
    SentToAnother(c, j, args);
    AppendTaken(c, j, args);
    AnswersWithTerm(c.servers[j], args);
    c1 := OnAppend(c, j, args);
    var m := AppendReply(j, i, args.term, args.LastSent(), c.servers[j].core.HandleAppendEntries(args).1);
    c2 := RepliedTo(c1, m);
    ReachesOn(run, c, Deliver(Append(j, args)), c1);
    ReachesOn(run + [c1], c1, Deliver(m), c2);
  }

  lemma ReachesInv(run: seq<Cluster>, c: Cluster)
    requires Reaches(run, c)
    ensures Inv(c)
  {
    hide Inv;
    RunInv(run, |run| - 1);
  }

  lemma SentToAnother(c: Cluster, j: NodeId, args: AppendEntriesArgs)
    requires Inv(c) && Append(j, args) in c.net
    ensures args.leaderId != j
  {
    hide HistoryOk, ServerOk;
    assert MessageOk(c.hist, c.servers.Keys, Append(j, args));
  }

  lemma AnswersWithTerm(s: Server, args: AppendEntriesArgs)
    requires Acceptable(s, args) && args.term < s.Term()
    ensures s.core.HandleAppendEntries(args).1.term == s.Term()
  {
    hide Node.HandleAppendEntries;
    AppendAnswer(s.core, args);
  }

  // A refusal's term reaches the leader.
  lemma RepliedTo(c: Cluster, m: Message) returns (c': Cluster)
    requires m in c.net && m.to in c.servers && m.AppendReply?
    ensures Takes(c, Deliver(m), c') && m.to in c'.servers
    ensures
      var s, s' := c.servers[m.to], c'.servers[m.to];
      && s'.Term() == Max(s.Term(), m.appendReply.term)
      && (s.Term() < m.appendReply.term ==> s'.core.role == Follower)
  {
    hide Exec;
    if m.appendReply.term > c.servers[m.to].Term() {
      NewerTermDeposes(c, m);
    } else {
      OtherRepliesKeepTerm(c, m);
    }
    c' := Exec(c, Deliver(m));
  }

  // ---- elections ----

  // A request in flight gets the vote if and only if it is not too old, the voter is free, and
  // the log the candidate campaigned with is at least as recent as the voter's.
  lemma VoteGrantedIff(run: seq<Cluster>, a: nat, v: NodeId, args: RequestVoteArgs)
    requires IsRun(run) && a < |run| && v in run[a].servers && VoteRequest(v, args) in run[a].net
    ensures
      var s, b := run[a].servers[v], Ballot(args.term, args.candidateId);
      && b in run[a].hist.campaigns
      && (s.core.HandleRequestVote(args).1.voteGranted <==>
            && args.term >= s.Term()
            && (args.term > s.Term() || s.core.hard.votedFor in {None, Some(args.candidateId)})
            && AtLeastAsRecent(run[a].hist.campaigns[b], s.Log()))
  {
    hide IsRun, Inv, HistoryOk, LogOk, RoleOk, ProgressOk, StoreOk, Node.HandleRequestVote;
    RunInv(run, a);
    RequestSound(run[a], v, args);
    ServerFacts(run[a], v);
    Views(run[a].servers.Keys, v, run[a].servers[v]);
    VoteRule(run[a].servers[v].core, args);
  }

  lemma RequestSound(c: Cluster, v: NodeId, args: RequestVoteArgs)
    requires Inv(c) && VoteRequest(v, args) in c.net
    ensures VoteRequestOk(c.hist, v, args)
  {
    hide HistoryOk, ServerOk;
    assert MessageOk(c.hist, c.servers.Keys, VoteRequest(v, args));
  }

  // `i` campaigns in `t` with `log` and has the votes in `granted`; its requests are out.
  ghost predicate Campaigning(c: Cluster, i: NodeId, t: Term, log: Entries, granted: set<NodeId>) {
    && i in c.servers && c.servers[i].core.role == Candidate
    && c.servers[i].Term() == t && c.servers[i].Log() == log && c.servers[i].granted == granted
    && forall p :: p in c.servers[i].core.peers ==> VoteRequest(p, Ballots(i, t, log)) in c.net
  }

  function Ballots(i: NodeId, t: Term, log: Entries): RequestVoteArgs {
    RequestVoteArgs(t, i, |log|, LastTerm(log))
  }

  // Nodes that have not reached the term and whose logs are no more recent.
  ghost predicate WillVote(c: Cluster, i: NodeId, t: Term, log: Entries, voters: set<NodeId>) {
    i !in voters && forall v :: v in voters ==>
      v in c.servers && c.servers[v].Term() < t && AtLeastAsRecent(log, c.servers[v].Log())
  }

  // `i` leads in `t` with `log` and a no-op behind it.
  ghost predicate Leads(c: Cluster, i: NodeId, t: Term, log: Entries) {
    && i in c.servers && c.servers[i].core.role == Leader && c.servers[i].Term() == t
    && c.servers[i].Log() == log + [LogEntry(t, |log| + 1, Noop)]
  }

  // A node whose term and log are not behind those of a majority, itself included, can be
  // elected: its timeout, and one request and one reply for each of the others, suffice.
  lemma CanWin(run: seq<Cluster>, c: Cluster, i: NodeId, voters: set<NodeId>)
    returns (run': seq<Cluster>, c': Cluster)
    requires Reaches(run, c) && i in c.servers && i !in voters && voters != {}
    requires 2 * (1 + |voters|) > |c.servers|
    requires forall v :: v in voters ==>
      && v in c.servers && c.servers[v].Term() <= c.servers[i].Term()
      && AtLeastAsRecent(c.servers[i].Log(), c.servers[v].Log())
    ensures Reaches(run', c') && run <= run' && |run'| <= |run| + 1 + 2 * |voters|
    ensures Leads(c', i, c.servers[i].Term() + 1, c.servers[i].Log())
  {
    hide Reaches, Inv, Exec, Enabled, AtLeastAsRecent, Leads, Campaigning;
    ReachesInv(run, c);
    var c1 := Stands(c, i);
    ReachesOn(run, c, Timeout(i), c1);
    AloneIsNotEnough(c, i, voters);
    assert c1.servers.Keys == c.servers.Keys;
    run', c' := GathersVotes(run + [c1], c1, i, c.servers[i].Term() + 1, c.servers[i].Log(), {}, voters);
  }

  lemma Stands(c: Cluster, i: NodeId) returns (c': Cluster)
    requires Inv(c) && i in c.servers
    ensures Takes(c, Timeout(i), c') && Campaigning(c', i, c.servers[i].Term() + 1, c.servers[i].Log(), {})
    ensures c'.servers == c.servers[i := c'.servers[i]]
  {
    hide Inv, HistoryOk, LogOk, RoleOk, ProgressOk, StoreOk, Exec, Enabled, Node.BecomeCandidate;
    var s := c.servers[i];
    ServerFacts(c, i);
    Views(c.servers.Keys, i, s);
    CampaignRule(s.core);
    TimesOut(c, i);
    c' := Exec(c, Timeout(i));
  }

  // With other voters to ask, one's own vote is no majority yet.
  lemma AloneIsNotEnough(c: Cluster, i: NodeId, voters: set<NodeId>)
    requires i in c.servers && i !in voters && voters != {} && forall v :: v in voters ==> v in c.servers
    ensures |c.servers| >= 2
  {
    var v :| v in voters;
    SubsetSize({i, v}, c.servers.Keys);
  }

  lemma {:induction false} GathersVotes(run: seq<Cluster>, c: Cluster, i: NodeId, t: Term, log: Entries,
                                        granted: set<NodeId>, voters: set<NodeId>)
    returns (run': seq<Cluster>, c': Cluster)
    requires Reaches(run, c) && Campaigning(c, i, t, log, granted)
    requires WillVote(c, i, t, log, voters) && granted !! voters
    requires 2 * (1 + |granted|) <= |c.servers| < 2 * (1 + |granted| + |voters|)
    ensures Reaches(run', c') && run <= run' && |run'| <= |run| + 2 * |voters| && Leads(c', i, t, log)
    decreases |voters|
  {
    hide Reaches, Inv, Enabled, Exec, Campaigning, WillVote, Leads;
    var v :| v in voters;
    ReachesInv(run, c);
    var c1, c2, m1, m2 := OneVote(c, i, t, log, granted, voters, v);
    ReachesOn(run, c, Deliver(m1), c1);
    ReachesOn(run + [c1], c1, Deliver(m2), c2);
    run', c' := run + [c1] + [c2], c2;
    if 2 * (1 + |granted + {v}|) <= |c.servers| {
      run', c' := GathersVotes(run', c2, i, t, log, granted + {v}, voters - {v});
    }
  }

  // One of them is asked and answers.
  lemma OneVote(c: Cluster, i: NodeId, t: Term, log: Entries, granted: set<NodeId>, voters: set<NodeId>, v: NodeId)
    returns (c1: Cluster, c2: Cluster, m1: Message, m2: Message)
    requires Inv(c) && Campaigning(c, i, t, log, granted) && WillVote(c, i, t, log, voters)
    requires v in voters && v !in granted
    ensures Takes(c, Deliver(m1), c1) && Takes(c1, Deliver(m2), c2) && |c2.servers| == |c.servers|
    ensures
      if 2 * (1 + |granted + {v}|) > |c.servers| then Leads(c2, i, t, log)
      else Campaigning(c2, i, t, log, granted + {v}) && WillVote(c2, i, t, log, voters - {v})
  {
    hide Inv, Exec, Enabled, TakesOffice, Node.HandleRequestVote;
    var s, args := c.servers[i], Ballots(i, t, log);
    Granted(c, i, t, log, v);
    m1, m2 := VoteRequest(v, args), VoteReply(v, i, t, RequestVoteReply(t, true));
    Votes(c, v, args);
    c1 := Exec(c, Deliver(m1));
    VoteCounts(c1, i, v, m2);
    c2 := Exec(c1, Deliver(m2));
    InOffice(s.core);
    assert s.dropped + (s.core.entries + [LogEntry(t, |log| + 1, Noop)]) == log + [LogEntry(t, |log| + 1, Noop)];
    assert c2.servers.Keys == c.servers.Keys;
  }

  lemma Granted(c: Cluster, i: NodeId, t: Term, log: Entries, v: NodeId)
    requires Inv(c) && i in c.servers && v in c.servers && v != i
    requires c.servers[v].Term() < t && AtLeastAsRecent(log, c.servers[v].Log())
    ensures v in c.servers[i].core.peers && |c.servers[i].core.peers| + 1 == |c.servers|
    ensures c.servers[i].core.LastLogIndex() == |c.servers[i].Log()|
    ensures c.servers[v].core.HandleRequestVote(Ballots(i, t, log)).1 == RequestVoteReply(t, true)
  {
    hide Inv, HistoryOk, LogOk, RoleOk, ProgressOk, StoreOk, Node.HandleRequestVote;
    ServerFacts(c, i);
    ServerFacts(c, v);
    Views(c.servers.Keys, i, c.servers[i]);
    Views(c.servers.Keys, v, c.servers[v]);
    VoteRule(c.servers[v].core, Ballots(i, t, log));
    PeerCount(c.servers.Keys, i, c.servers[i].core.peers);
  }

  // Taking office appends a no-op and changes neither the term nor what was there.
  lemma InOffice(n: Node)
    ensures
      var n' := TakesOffice(n);
      && n'.role == Leader && n'.hard == n.hard
      && n'.entries == n.entries + [LogEntry(n.hard.currentTerm, n.LastLogIndex() + 1, Noop)]
  {
    hide Node.AdvanceCommitIndex;
    CommitRule(n.BecomeLeader().AppendCommand(Noop).value);
  }

  // In a cluster of one the program never gets that far: it counts its votes only when a
  // reply comes in.
  lemma {:induction false} LoneNodeNeverLeads(run: seq<Cluster>, a: nat, i: NodeId)
    requires IsRun(run) && a < |run| && run[a].servers.Keys == {i}
    ensures run[a].servers[i].core.role != Leader
    decreases a
  {
    hide Inv, Enabled, Exec, Init;
    if a == 0 {
      InitFollows(run[0], i);
    } else {
      assert Follows(run[a - 1], run[a - 1 + 1]);
      var step :| Takes(run[a - 1], step, run[a]);
      RunInv(run, a - 1);
      StepInv(run[a - 1], step);
      LoneNodeNeverLeads(run, a - 1, i);
      if run[a].servers[i].core.role == Leader {
        NewLeaderHadVote(run[a - 1], step, i);
        ReplyFromAnother(run[a - 1], step.m);
      }
    }
  }

  lemma InitFollows(c: Cluster, i: NodeId)
    requires Init(c) && i in c.servers
    ensures c.servers[i].core.role == Follower
  {
    assert FreshServer(c.servers.Keys, i, c.servers[i]);
  }

  // Nobody comes to lead but by a vote.
  lemma NewLeaderHadVote(c: Cluster, step: Step, i: NodeId)
    requires Enabled(c, step) && i in c.servers && i in Exec(c, step).servers
    requires c.servers[i].core.role != Leader && Exec(c, step).servers[i].core.role == Leader
    ensures step.Deliver? && step.m.VoteReply? && step.m.to == i && step.m in c.net
  {
    hide QuorumIndex, ApplyAll, Node.Committed, Splice, TornSplice, Open;
  }

  lemma ReplyFromAnother(c: Cluster, m: Message)
    requires Inv(c) && m in c.net && m.VoteReply?
    ensures m.from in c.servers && m.from != m.to
  {
    hide HistoryOk, ServerOk;
    assert MessageOk(c.hist, c.servers.Keys, m);
  }
}
