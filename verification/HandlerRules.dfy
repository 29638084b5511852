/**
  What one node answers and how it changes, for every state and every message: each handler
  decided outright from the fields it reads.
*/
module HandlerRules {
  import opened Types
  import opened Quorum
  import opened RaftNode
  import opened Splicing

  // A campaign: the next term, a vote for oneself, and a request with the end of the log.
  lemma CampaignRule(n: Node)
    ensures
      var (n', args) := n.BecomeCandidate();
      && n' == n.(role := Candidate, leaderId := None, hard := HardState(n.hard.currentTerm + 1, Some(n.id)))
      && args == RequestVoteArgs(n.hard.currentTerm + 1, n.id, n.LastLogIndex(), n.LastLogTerm())
  {
  }

  // A new leader starts every peer, and nobody else, right behind its own log with nothing
  // acknowledged.
  lemma OfficeRule(n: Node)
    ensures
      var n' := n.BecomeLeader();
      && n'.nextIndex.Keys == n'.matchIndex.Keys == (set p | p in n.peers)
      && (forall p :: p in n.peers ==> n'.NextFor(p) == n.LastLogIndex() + 1 && n'.MatchOf(p) == 0)
      && n' == n.(role := Leader, leaderId := Some(n.id), nextIndex := n'.nextIndex, matchIndex := n'.matchIndex)
  {
  }

  // A vote is granted if and only if the request is not of an older term, the voter has not
  // voted for anyone else in that term, and the candidate's last entry is of a later term
  // than the voter's or of the same term with at least as long a log.
  lemma VoteRule(n: Node, args: RequestVoteArgs)
    ensures
      var (n', reply), term := n.HandleRequestVote(args), n.hard.currentTerm;
      && (reply.voteGranted <==>
            && args.term >= term
            && (args.term > term || n.hard.votedFor == None || n.hard.votedFor == Some(args.candidateId))
            && (args.lastLogTerm > n.LastLogTerm()
                || (args.lastLogTerm == n.LastLogTerm() && args.lastLogIndex >= n.LastLogIndex())))
      && reply.term == n'.hard.currentTerm == Max(term, args.term)
      && n'.hard.votedFor ==
           (if reply.voteGranted then Some(args.candidateId) else if args.term > term then None else n.hard.votedFor)
      && n' == if args.term > term then n.(role := Follower, leaderId := None, hard := n'.hard) else n.(hard := n'.hard)
  {
  }

  // The answer to AppendEntries: it carries the newer of the two terms, and succeeds if and
  // only if the message is not of an older term and passes both halves of the check.
  lemma AppendAnswer(n: Node, args: AppendEntriesArgs)
    requires n.CanHandle(args)
    ensures
      var (n', reply), term := n.HandleAppendEntries(args), n.hard.currentTerm;
      && reply.term == n'.hard.currentTerm == Max(term, args.term)
      && (reply.success <==>
            && args.term >= term && args.prevLogIndex <= n.LastLogIndex()
            && (n.TermAt(args.prevLogIndex) == None || n.TermAt(args.prevLogIndex) == Some(args.prevLogTerm)))
      && reply.conflictIndex ==
           if args.term < term || reply.success then 0
           else if args.prevLogIndex > n.LastLogIndex() then n.LastLogIndex() + 1 else args.prevLogIndex
  {
    hide Splice;
  }

  // What AppendEntries does to the node: nothing when it is of an older term. Otherwise the
  // sender is followed, the log and the commit index move only on success, and the vote is
  // forgotten only with its term.
  lemma AppendEffect(n: Node, args: AppendEntriesArgs)
    requires n.CanHandle(args)
    ensures
      var (n', reply), term := n.HandleAppendEntries(args), n.hard.currentTerm;
      if args.term < term then n' == n
      else
        && n'.hard.votedFor == (if args.term > term then None else n.hard.votedFor)
        && n' == n.(role := Follower, leaderId := Some(args.leaderId), hard := n'.hard, entries := n'.entries,
                    commitIndex := n'.commitIndex)
        && (if reply.success then
              && (forall e :: e in args.entries ==> Present(n'.entries, n.snapshot.lastIncludedIndex, e))
              && n'.commitIndex ==
                   if args.leaderCommit > n.commitIndex then Min(args.leaderCommit, n'.LastLogIndex())
                   else n.commitIndex
            else n'.entries == n.entries && n'.commitIndex == n.commitIndex)
  {
    hide Splice, Covered, Present;
    if args.term >= n.hard.currentTerm && n.Accepts(args) {
      assert n.Recognise(args).Accepts(args);
      SpliceStores(n.entries, n.snapshot.lastIncludedIndex, args.Start(), args.entries);
    }
  }

  // A command is taken by a leader and nobody else, as the next entry of its term.
  lemma ProposeRule(n: Node, command: Command)
    ensures
      var r := n.AppendCommand(command);
      && (r.Ok? <==> n.role == Leader)
      && (if r.Ok? then
            && r.value == n.(entries := r.value.entries) && r.value.LastLogIndex() == n.LastLogIndex() + 1
            && r.value.entries == n.entries + [LogEntry(n.hard.currentTerm, n.LastLogIndex() + 1, command)]
          else r == Err(RaftError))
  {
  }

  // Folding a reply in moves the two indices of its sender, and the commit index after a
  // success; every other peer's indices and everything else stay.
  lemma ReplyRule(n: Node, peer: NodeId, lastSent: LogIndex, reply: AppendEntriesReply)
    requires n.role == Leader
    ensures
      var n' := n.OnAppendEntriesReply(peer, lastSent, reply);
      var next := if peer in n.nextIndex then n.nextIndex[peer] else 1;
      && n' == n.(commitIndex := n'.commitIndex, nextIndex := n'.nextIndex, matchIndex := n'.matchIndex)
      && (forall p :: p != peer ==> n'.MatchOf(p) == n.MatchOf(p) && n'.NextFor(p) == n.NextFor(p))
      && (if reply.success then n'.MatchOf(peer) == lastSent && n'.NextFor(peer) == lastSent + 1
          else
            && n'.MatchOf(peer) == n.MatchOf(peer) && n'.commitIndex == n.commitIndex
            && n'.NextFor(peer) ==
                 Max(1, Min(if reply.conflictIndex > 0 then reply.conflictIndex else Pred(next), Pred(next))))
  {
    hide QuorumIndex;
  }
}
