/**
  The inductive invariant of the cluster, in three layers: facts about the recorded
  history, facts about each message in flight, and facts about each server.
*/
module Invariant {
  import opened Types
  import opened Quorum
  import opened StateMachine
  import opened Cluster

  // ---- logs ----

  function LastTerm(log: Entries): Term {
    if log == [] then 0 else log[|log| - 1].term
  }

  ghost predicate TermsBelow(log: Entries, t: Term) {
    forall k :: 0 <= k < |log| ==> log[k].term < t
  }

  // Every entry sits where its term's leader put it: up to that entry, the log is a
  // prefix of what that leader held. This is log matching, one log at a time.
  ghost predicate Rooted(h: History, log: Entries) {
    forall k :: 0 <= k < |log| ==>
      && log[k].index == k + 1
      && log[k].term in h.leaderLog
      && log[..k + 1] <= h.leaderLog[log[k].term]
  }

  lemma RootedIndices(h: History, log: Entries)
    requires Rooted(h, log)
    ensures Contiguous(log, 1)
  {
  }

  // `a` is at least as up to date as `b`.
  ghost predicate AtLeastAsRecent(a: Entries, b: Entries) {
    LastTerm(a) > LastTerm(b) || (LastTerm(a) == LastTerm(b) && |a| >= |b|)
  }

  // ---- history ----

  ghost predicate CampaignsOk(h: History) {
    forall b :: b in h.campaigns ==> Rooted(h, h.campaigns[b]) && TermsBelow(h.campaigns[b], b.term)
  }

  ghost predicate VotesOk(h: History) {
    forall b :: b in h.votes ==>
      && Rooted(h, h.votes[b].log)
      && Ballot(b.term, h.votes[b].candidate) in h.campaigns
      && AtLeastAsRecent(h.campaigns[Ballot(b.term, h.votes[b].candidate)], h.votes[b].log)
  }

  // A majority voted for the leader, which campaigned with the recorded log.
  ghost predicate ElectionOk(h: History, members: set<NodeId>, t: Term, e: Election) {
    && e.voters <= members && |e.voters| >= Majority(|members|)
    && Ballot(t, e.leader) in h.campaigns && h.campaigns[Ballot(t, e.leader)] == e.log
    && forall w :: w in e.voters ==> Ballot(t, w) in h.votes && h.votes[Ballot(t, w)].candidate == e.leader
  }

  // What the leader of `t` held: its log when elected, then entries of its own term.
  ghost predicate LeaderLogOk(h: History, t: Term)
    requires t in h.elections && t in h.leaderLog
  {
    && h.elections[t].log <= h.leaderLog[t]
    && Rooted(h, h.leaderLog[t])
    && forall k :: |h.elections[t].log| <= k < |h.leaderLog[t]| ==> h.leaderLog[t][k].term == t
  }

  ghost predicate ElectionsOk(h: History, members: set<NodeId>) {
    && h.elections.Keys == h.leaderLog.Keys
    && forall t :: t in h.elections ==> ElectionOk(h, members, t, h.elections[t]) && LeaderLogOk(h, t)
  }

  ghost predicate AckOk(h: History, members: set<NodeId>, a: Ack) {
    a.node in members && a.term in h.leaderLog && a.upTo <= |h.leaderLog[a.term]|
  }

  ghost predicate AcksOk(h: History, members: set<NodeId>) {
    && (forall a :: a in h.acks ==> AckOk(h, members, a))
    && (forall a, k: nat :: a in h.acks && k <= a.upTo ==> Ack(a.node, a.term, k) in h.acks)
  }

  function Acked(h: History, a: Ack): Entries
    requires a.term in h.leaderLog && a.upTo <= |h.leaderLog[a.term]|
  {
    h.leaderLog[a.term][..a.upTo]
  }

  // Every leader elected strictly between the two terms was elected holding `p`.
  ghost predicate Unbroken(h: History, p: Entries, after: Term, before: Term) {
    forall t :: t in h.elections && after < t < before ==> p <= h.elections[t].log
  }

  // The vote was not cast after its term already had a leader.
  ghost predicate Timely(h: History, b: Ballot) {
    b.term in h.elections ==> b.node in h.elections[b.term].voters
  }

  // A node that acknowledged a prefix still held it at any later timely vote, unless a
  // leader elected in between had lost it.
  ghost predicate AckedAtVote(h: History, a: Ack, b: Ballot)
    requires a.term in h.leaderLog && a.upTo <= |h.leaderLog[a.term]| && b in h.votes
  {
    a.node == b.node && a.term < b.term && Timely(h, b) && Unbroken(h, Acked(h, a), a.term, b.term)
    ==> Acked(h, a) <= h.votes[b].log
  }

  ghost predicate VotesKeepAcks(h: History, members: set<NodeId>)
    requires AcksOk(h, members)
  {
    forall a, b :: a in h.acks && b in h.votes ==> AckedAtVote(h, a, b)
  }

  // A commit is an entry of the leader's own term that a majority acknowledged.
  ghost predicate CommitOk(h: History, members: set<NodeId>, cm: Commit) {
    && cm.term in h.leaderLog && 0 < cm.index <= |h.leaderLog[cm.term]|
    && h.leaderLog[cm.term][cm.index - 1].term == cm.term
    && cm.quorum <= members && |cm.quorum| >= Majority(|members|)
    && forall w :: w in cm.quorum ==> Ack(w, cm.term, cm.index) in h.acks
  }

  ghost predicate CommitsOk(h: History, members: set<NodeId>) {
    forall cm :: cm in h.commits ==> CommitOk(h, members, cm)
  }

  ghost predicate HistoryOk(h: History, members: set<NodeId>) {
    && CampaignsOk(h)
    && VotesOk(h)
    && ElectionsOk(h, members)
    && AcksOk(h, members)
    && VotesKeepAcks(h, members)
    && CommitsOk(h, members)
  }

  // ---- commit evidence ----

  ghost predicate Covers(h: History, cm: Commit, log: Entries, index: LogIndex, t: Term) {
    && cm.term in h.leaderLog && cm.index <= |h.leaderLog[cm.term]|
    && cm.term <= t && index <= cm.index && index <= |log|
    && log[..index] == h.leaderLog[cm.term][..index]
  }

  // The first `index` entries of `log` were committed no later than term `t`.
  ghost predicate CommittedUpTo(h: History, log: Entries, index: LogIndex, t: Term) {
    index <= |log| && (index == 0 || exists cm :: cm in h.commits && Covers(h, cm, log, index, t))
  }

  // ---- messages ----

  function TermBefore(log: Entries, index: LogIndex): Term
    requires index <= |log|
  {
    if index == 0 then 0 else log[index - 1].term
  }

  ghost predicate AppendOk(h: History, to: NodeId, args: AppendEntriesArgs) {
    && args.term in h.leaderLog && args.term in h.elections
    && args.leaderId == h.elections[args.term].leader && to != args.leaderId
    && args.LastSent() <= |h.leaderLog[args.term]|
    && args.entries == h.leaderLog[args.term][args.prevLogIndex..args.LastSent()]
    && args.prevLogTerm == TermBefore(h.leaderLog[args.term], args.prevLogIndex)
    && args.leaderCommit <= args.LastSent()
    && CommittedUpTo(h, h.leaderLog[args.term], args.leaderCommit, args.term)
  }

  ghost predicate VoteRequestOk(h: History, to: NodeId, args: RequestVoteArgs) {
    var b := Ballot(args.term, args.candidateId);
    && b in h.campaigns && to != args.candidateId
    && args.lastLogIndex == |h.campaigns[b]| && args.lastLogTerm == LastTerm(h.campaigns[b])
  }

  ghost predicate MessageOk(h: History, members: set<NodeId>, m: Message) {
    match m
    case VoteRequest(to, args) => VoteRequestOk(h, to, args)
    case VoteReply(from, to, requestTerm, reply) =>
      && from in members && from != to
      && (reply.voteGranted ==>
            Ballot(requestTerm, from) in h.votes && h.votes[Ballot(requestTerm, from)].candidate == to)
    case Append(to, args) => AppendOk(h, to, args)
    case AppendReply(from, to, requestTerm, lastSent, reply) =>
      && from in members && from != to
      && (reply.success ==> Ack(from, requestTerm, lastSent) in h.acks)
  }

  // ---- servers ----

  // The in-memory entries and the snapshot describe the same log.
  ghost predicate LayoutOk(members: set<NodeId>, i: NodeId, s: Server) {
    && s.core.id == i && PeersOf(s.core.peers, members, i)
    && s.core.WellFormed()
    && |s.dropped| == s.core.snapshot.lastIncludedIndex
    && s.core.snapshot.lastIncludedTerm == LastTerm(s.dropped)
  }

  ghost predicate LogOk(h: History, s: Server) {
    Rooted(h, s.Log()) && TermsBelow(s.Log(), s.Term() + 1)
  }

  // Hard state remembers the vote of the current term; older votes cannot be repeated.
  ghost predicate VoteOk(h: History, i: NodeId, s: Server) {
    && (forall b :: b in h.votes && b.node == i ==> b.term <= s.Term())
    && (forall b :: b in h.campaigns && b.node == i ==> b.term <= s.Term())
    && (Ballot(s.Term(), i) in h.votes ==>
          s.core.hard.votedFor == Some(h.votes[Ballot(s.Term(), i)].candidate))
    && (s.core.hard.votedFor.Some? ==> Ballot(s.Term(), i) in h.votes)
  }

  ghost predicate CandidateOk(h: History, members: set<NodeId>, i: NodeId, s: Server) {
    && Ballot(s.Term(), i) in h.campaigns && h.campaigns[Ballot(s.Term(), i)] == s.Log()
    && s.core.hard.votedFor == Some(i)
    && (s.Term() in h.elections ==> h.elections[s.Term()].leader != i)
    && s.granted <= members - {i}
    && forall w :: w in s.granted ==>
         Ballot(s.Term(), w) in h.votes && h.votes[Ballot(s.Term(), w)].candidate == i
  }

  ghost predicate LeaderOk(h: History, i: NodeId, s: Server) {
    && s.Term() in h.elections && h.elections[s.Term()].leader == i
    && s.Term() in h.leaderLog && h.leaderLog[s.Term()] == s.Log()
    && Ack(i, s.Term(), |s.Log()|) in h.acks
    && (forall p :: p in s.core.matchIndex ==>
          s.core.matchIndex[p] == 0 || Ack(p, s.Term(), s.core.matchIndex[p]) in h.acks)
    && (forall p :: p in s.core.nextIndex ==> 1 <= s.core.nextIndex[p] <= |s.Log()| + 1)
  }

  ghost predicate RoleOk(h: History, members: set<NodeId>, i: NodeId, s: Server) {
    && (forall t :: t in h.elections && h.elections[t].leader == i ==> t <= s.Term())
    && (s.core.role == Candidate ==> CandidateOk(h, members, i, s))
    && (s.core.role == Leader ==> LeaderOk(h, i, s))
  }

  // What a node acknowledged it still holds, unless some later leader had lost it.
  ghost predicate KeepsAcks(h: History, members: set<NodeId>, i: NodeId, s: Server)
    requires AcksOk(h, members)
  {
    forall a :: a in h.acks && a.node == i ==>
      && a.term <= s.Term()
      && (Unbroken(h, Acked(h, a), a.term, s.Term() + 1) ==> Acked(h, a) <= s.Log())
  }

  // snapshot <= applied <= commit <= last, and everything up to commit is committed.
  ghost predicate ProgressOk(h: History, s: Server) {
    && |s.dropped| <= s.core.lastApplied <= s.core.commitIndex
    && CommittedUpTo(h, s.Log(), s.core.commitIndex, s.Term())
  }

  // The store is the fold of the applied prefix, and its disk that of the snapshot.
  ghost predicate StoreOk(s: Server) {
    && s.core.lastApplied <= |s.Log()| && |s.dropped| <= |s.Log()|
    && s.store.table == Table(Fold(s.Log()[..s.core.lastApplied]), s.core.lastApplied)
    && s.store.lastSnapshot == s.core.snapshot
    && Open(s.store.disk, s.store.threshold)
       == StoreState(Table(Fold(s.dropped), |s.dropped|), s.store.threshold, s.core.snapshot, s.store.disk)
  }

  ghost predicate ServerOk(h: History, members: set<NodeId>, i: NodeId, s: Server)
    requires AcksOk(h, members)
  {
    && LayoutOk(members, i, s)
    && LogOk(h, s)
    && VoteOk(h, i, s)
    && RoleOk(h, members, i, s)
    && KeepsAcks(h, members, i, s)
    && ProgressOk(h, s)
    && StoreOk(s)
  }

  ghost predicate Inv(c: Cluster) {
    && HistoryOk(c.hist, c.servers.Keys)
    && (forall m :: m in c.net ==> MessageOk(c.hist, c.servers.Keys, m))
    && (forall i :: i in c.servers ==> ServerOk(c.hist, c.servers.Keys, i, c.servers[i]))
  }
}
