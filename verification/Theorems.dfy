/**
  What the cluster guarantees, over every run and between any two moments of it.
*/
module Theorems {
  import opened Types
  import opened Quorum
  import opened RaftNode
  import opened StateMachine
  import opened Cluster
  import opened Invariant
  import opened Completeness
  import opened Growth
  import opened FollowerSteps
  import opened Safety
  import opened ElectionSteps
  import opened LocalSteps
  import opened CrashSteps
  import opened LeaderRules
  import opened Splicing

  // A history that both moments can be judged by.
  lemma CommonHistory(run: seq<Cluster>, a: nat, b: nat) returns (h: History)
    requires IsRun(run) && a < |run| && b < |run|
    ensures Inv(run[a]) && Inv(run[b])
    ensures run[a].servers.Keys == run[b].servers.Keys
    ensures HistoryOk(h, run[a].servers.Keys)
    ensures Grows(run[a].hist, h) && Grows(run[b].hist, h)
  {
    hide Grows, HistoryOk, ServerOk, MessageOk;
    var k := Max(a, b);
    RunInv(run, a);
    RunInv(run, b);
    RunGrows(run, a, k);
    RunGrows(run, b, k);
    h := run[k].hist;
  }

  // What the invariant says of one server.
  lemma ServerFacts(c: Cluster, i: NodeId)
    requires Inv(c) && i in c.servers
    ensures var s := c.servers[i];
      && LayoutOk(c.servers.Keys, i, s) && LogOk(c.hist, s) && RoleOk(c.hist, c.servers.Keys, i, s)
      && ProgressOk(c.hist, s) && StoreOk(s)
  {
    assert ServerOk(c.hist, c.servers.Keys, i, c.servers[i]);
  }

  // Election safety: one leader per term, across the whole run.
  lemma ElectionSafety(run: seq<Cluster>, a: nat, b: nat, i: NodeId, j: NodeId)
    requires IsRun(run) && a < |run| && b < |run| && i in run[a].servers && j in run[b].servers
    requires run[a].servers[i].core.role == Leader && run[b].servers[j].core.role == Leader
    requires run[a].servers[i].Term() == run[b].servers[j].Term()
    ensures i == j
  {
    hide IsRun, Inv, HistoryOk, LogOk, ProgressOk, StoreOk, LayoutOk;
    var h := CommonHistory(run, a, b);
    ServerFacts(run[a], i);
    ServerFacts(run[b], j);
  }

  // Log matching, between any two logs at any two moments.
  lemma LogsMatch(run: seq<Cluster>, a: nat, b: nat, i: NodeId, j: NodeId, k: nat)
    requires IsRun(run) && a < |run| && b < |run| && i in run[a].servers && j in run[b].servers
    requires
      var x, y := run[a].servers[i].Log(), run[b].servers[j].Log();
      k < |x| && k < |y| && x[k].term == y[k].term
    ensures run[a].servers[i].Log()[..k + 1] == run[b].servers[j].Log()[..k + 1]
  {
    hide IsRun, Inv, HistoryOk, Rooted, RoleOk, ProgressOk, StoreOk, LayoutOk, Grows;
    var h := CommonHistory(run, a, b);
    ServerFacts(run[a], i);
    ServerFacts(run[b], j);
    var x, y := run[a].servers[i].Log(), run[b].servers[j].Log();
    RootedKept(run[a].hist, h, x);
    RootedKept(run[b].hist, h, y);
    LogMatching(h, x, y, k);
  }

  // The same between a log and a message in flight: where the terms agree, so do all the
  // entries of the message up to there, so skipping an entry on its term alone never keeps
  // a different command.
  lemma InFlightMatches(run: seq<Cluster>, a: nat, b: nat, to: NodeId, args: AppendEntriesArgs, j: NodeId, k: nat)
    requires IsRun(run) && a < |run| && b < |run| && Append(to, args) in run[a].net && j in run[b].servers
    requires
      var log := run[b].servers[j].Log();
      k < |args.entries| && args.prevLogIndex + k < |log| && log[args.prevLogIndex + k].term == args.entries[k].term
    ensures run[b].servers[j].Log()[args.prevLogIndex..args.prevLogIndex + k + 1] == args.entries[..k + 1]
  {
    hide IsRun, Inv, HistoryOk, RoleOk, ProgressOk, StoreOk, LayoutOk, Grows, Rooted;
    var h := CommonHistory(run, a, b);
    var log, prev, x := run[b].servers[j].Log(), args.prevLogIndex, args.prevLogIndex + k;
    ServerFacts(run[b], j);
    RootedKept(run[b].hist, h, log);
    SentByLeader(run[a], h, to, args);
    var l := h.leaderLog[args.term];
    assert args.entries[k] == l[x];
    LogMatching(h, log, l, x);
    assert log[prev..x + 1] == log[..x + 1][prev..] == l[..x + 1][prev..] == l[prev..x + 1];
    assert args.entries[..k + 1] == l[prev..x + 1];
  }

  // And for the check itself: a log with the message's term at the message's check agrees up
  // to there with the log of whoever leads in the message's term.
  lemma CheckMatches(run: seq<Cluster>, a: nat, b: nat, c: nat, to: NodeId, args: AppendEntriesArgs, j: NodeId,
                     leader: NodeId)
    requires IsRun(run) && a < |run| && b < |run| && c < |run|
    requires Append(to, args) in run[a].net && j in run[b].servers && leader in run[c].servers
    requires run[c].servers[leader].core.role == Leader && run[c].servers[leader].Term() == args.term
    requires
      var log, prev := run[b].servers[j].Log(), args.prevLogIndex;
      0 < prev <= |log| && prev <= |run[c].servers[leader].Log()| && log[prev - 1].term == args.prevLogTerm
    ensures run[b].servers[j].Log()[..args.prevLogIndex] == run[c].servers[leader].Log()[..args.prevLogIndex]
  {
    hide IsRun, Inv, HistoryOk, ProgressOk, StoreOk, LayoutOk, Rooted, Grows;
    RunInv(run, a);
    RunInv(run, c);
    var h := CommonHistory(run, a, c);
    SentByLeader(run[a], h, to, args);
    LeaderLogRecorded(run[c], h, leader);
    var l, prev := run[c].servers[leader].Log(), args.prevLogIndex;
    assert l[prev - 1] == h.leaderLog[args.term][prev - 1];
    LogsMatch(run, b, c, j, leader, prev - 1);
  }

  // A leader's log is what the history records for its term.
  lemma LeaderLogRecorded(c: Cluster, h: History, i: NodeId)
    requires Inv(c) && i in c.servers && c.servers[i].core.role == Leader && Grows(c.hist, h)
    ensures c.servers[i].Term() in h.leaderLog && c.servers[i].Log() <= h.leaderLog[c.servers[i].Term()]
  {
    hide HistoryOk;
    ServerFacts(c, i);
  }

  // A message is a slice of the log of the leader of its term.
  lemma SentByLeader(c: Cluster, h: History, to: NodeId, args: AppendEntriesArgs)
    requires Inv(c) && Append(to, args) in c.net && Grows(c.hist, h) && HistoryOk(h, c.servers.Keys)
    ensures AppendOk(h, to, args) && Rooted(h, h.leaderLog[args.term])
  {
    assert MessageOk(c.hist, c.servers.Keys, Append(to, args));
    MessageKept(c.hist, h, c.servers.Keys, Append(to, args));
    assert LeaderLogOk(h, args.term);
  }

  // Leader completeness over the run: whatever any node ever had committed is in the
  // log of every leader of a later term, at any moment of its leadership.
  lemma LeadersHoldCommitted(run: seq<Cluster>, a: nat, b: nat, i: NodeId, j: NodeId)
    requires IsRun(run) && a < |run| && b < |run| && i in run[a].servers && j in run[b].servers
    requires run[b].servers[j].core.role == Leader && run[b].servers[j].Term() > run[a].servers[i].Term()
    ensures
      var s := run[a].servers[i];
      s.core.commitIndex <= |s.Log()| && s.Log()[..s.core.commitIndex] <= run[b].servers[j].Log()
  {
    hide IsRun, Inv, HistoryOk, LogOk, StoreOk, Covers, LayoutOk, RoleOk;
    var h := CommonHistory(run, a, b);
    var s, leader := run[a].servers[i], run[b].servers[j];
    ServerFacts(run[a], i);
    var log, index := s.Log(), s.core.commitIndex;
    if index > 0 {
      CommittedKept(run[a].hist, h, log, log, index, s.Term(), s.Term());
      ElectedLogKept(run[b], j);
      LaterElectionHolds(h, run[a].servers.Keys, log, index, s.Term(), leader.Term());
      assert h.elections[leader.Term()] == run[b].hist.elections[leader.Term()];
    }
  }

  lemma ElectedLogKept(c: Cluster, j: NodeId)
    requires Inv(c) && j in c.servers && c.servers[j].core.role == Leader
    ensures c.servers[j].Term() in c.hist.elections
    ensures c.hist.elections[c.servers[j].Term()].log <= c.servers[j].Log()
  {
    assert LeaderOk(c.hist, j, c.servers[j]) && LeaderLogOk(c.hist, c.servers[j].Term());
  }

  lemma LaterElectionHolds(h: History, members: set<NodeId>, log: Entries, index: nat, t: Term, u: Term)
    requires HistoryOk(h, members) && CommittedUpTo(h, log, index, t) && index > 0
    requires t < u && u in h.elections
    ensures log[..index] <= h.elections[u].log
  {
    hide HistoryOk;
    var cm :| cm in h.commits && Covers(h, cm, log, index, t);
    LeaderCompleteness(h, members, cm, u);
    PrefixThrough(log, index, h.leaderLog[cm.term], cm.index, h.elections[u].log);
  }

  // State machine safety: an index committed on two nodes, at any two moments, holds
  // the same entry.
  lemma StateMachineSafety(run: seq<Cluster>, a: nat, b: nat, i: NodeId, j: NodeId)
    requires IsRun(run) && a < |run| && b < |run| && i in run[a].servers && j in run[b].servers
    ensures
      var s, t := run[a].servers[i], run[b].servers[j];
      var upTo := Min(s.core.commitIndex, t.core.commitIndex);
      upTo <= |s.Log()| && upTo <= |t.Log()| && s.Log()[..upTo] == t.Log()[..upTo]
  {
    hide IsRun, Inv, HistoryOk, LogOk, RoleOk, StoreOk, LayoutOk, Covers, Grows;
    var h := CommonHistory(run, a, b);
    ServerFacts(run[a], i);
    ServerFacts(run[b], j);
    var s, t := run[a].servers[i], run[b].servers[j];
    CommittedKept(run[a].hist, h, s.Log(), s.Log(), s.core.commitIndex, s.Term(), s.Term());
    CommittedKept(run[b].hist, h, t.Log(), t.Log(), t.core.commitIndex, t.Term(), t.Term());
    CommitsAgree(h, run[a].servers.Keys, s.Log(), s.core.commitIndex, s.Term(), t.Log(), t.core.commitIndex, t.Term());
  }

  // Every store is the fold of the committed log up to what it applied, so two stores
  // that applied equally far hold the same map, whatever snapshots and restarts lie
  // between them.
  lemma StoresAgree(run: seq<Cluster>, a: nat, b: nat, i: NodeId, j: NodeId)
    requires IsRun(run) && a < |run| && b < |run| && i in run[a].servers && j in run[b].servers
    ensures
      var s, t := run[a].servers[i], run[b].servers[j];
      && s.store.table.lastApplied == s.core.lastApplied <= |s.Log()|
      && s.store.table.data == Fold(s.Log()[..s.core.lastApplied])
      && (s.store.table.lastApplied == t.store.table.lastApplied ==> s.store.table == t.store.table)
  {
    hide IsRun, Inv, HistoryOk, LogOk, RoleOk, LayoutOk, Covers, Fold;
    RunInv(run, a);
    RunInv(run, b);
    StateMachineSafety(run, a, b, i, j);
    ServerFacts(run[a], i);
    ServerFacts(run[b], j);
    var s, t := run[a].servers[i], run[b].servers[j];
    var upTo, k := Min(s.core.commitIndex, t.core.commitIndex), s.core.lastApplied;
    if k == t.core.lastApplied {
      assert s.Log()[..k] == s.Log()[..upTo][..k] == t.Log()[..upTo][..k] == t.Log()[..k];
    }
  }

  // The indices of every node stay in order.
  lemma IndicesOrdered(run: seq<Cluster>, a: nat, i: NodeId)
    requires IsRun(run) && a < |run| && i in run[a].servers
    ensures
      var n := run[a].servers[i].core;
      n.snapshot.lastIncludedIndex <= n.lastApplied <= n.commitIndex <= n.LastLogIndex()
  {
    hide IsRun, Inv;
    RunInv(run, a);
    ServerFacts(run[a], i);
    var s := run[a].servers[i];
    Views(run[a].servers.Keys, i, s);
  }

  // ---- what a single step does to a server ----

  ghost predicate Advances(s: Server, s': Server) {
    s.Log() <= s'.Log() && s.Term() <= s'.Term() && s.core.commitIndex <= s'.core.commitIndex
  }

  lemma VoteRequestAdvances(s: Server, args: RequestVoteArgs)
    ensures Advances(s, s.(core := s.core.HandleRequestVote(args).0))
  {
  }

  lemma AdvanceAdvances(c: Cluster, i: NodeId, j: NodeId)
    requires i in c.servers && j in c.servers
    ensures Advances(c.servers[j], Advance(c, i).servers[j])
  {
    hide QuorumIndex;
  }

  lemma LeaderAppendAdvances(c: Cluster, i: NodeId, command: Command, j: NodeId)
    requires i in c.servers && j in c.servers && c.servers[i].core.role == Leader
    ensures
      var c' := Advance(LeaderAppend(c, i, command), i);
      Advances(c.servers[j], c'.servers[j])
  {
    var c1 := LeaderAppend(c, i, command);
    assert Advances(c.servers[j], c1.servers[j]);
    AdvanceAdvances(c1, i, j);
    hide Advance, LeaderAppend;
  }

  lemma VoteReplyAdvances(c: Cluster, from: NodeId, i: NodeId, t: Term, reply: RequestVoteReply, j: NodeId)
    requires i in c.servers && j in c.servers
    ensures Advances(c.servers[j], OnVoteReply(c, from, i, t, reply).servers[j])
  {
    hide Advance, LeaderAppend;
    var s := c.servers[i];
    if reply.term <= s.Term() && s.core.role == Candidate && s.Term() == t && reply.voteGranted {
      var won := Win(c.Put(i, s.(granted := s.granted + {from})), i);
      LeaderAppendAdvances(won, i, Noop, j);
    }
  }

  lemma AppendReplyAdvances(c: Cluster, from: NodeId, i: NodeId, t: Term, lastSent: LogIndex,
                            reply: AppendEntriesReply, j: NodeId)
    requires i in c.servers && j in c.servers
    ensures Advances(c.servers[j], OnAppendReply(c, from, i, t, lastSent, reply).servers[j])
  {
    hide Advance;
    var s := c.servers[i];
    AdvanceAdvances(c.Put(i, s.(core := s.core.RecordReply(from, lastSent, reply))), i, j);
  }

  lemma LocalAdvances(c: Cluster, i: NodeId)
    requires Inv(c) && i in c.servers
    ensures c.servers[i].core.WellFormed() && Advances(c.servers[i], Applied(c.servers[i]))
    ensures Restarted(c.servers[i]).Log() == c.servers[i].Log() && Restarted(c.servers[i]).Term() == c.servers[i].Term()
  {
    hide HistoryOk, LogOk, VoteOk, RoleOk, KeepsAcks, ProgressOk, StoreOk, MessageOk, Applied, Restarted;
    var s := c.servers[i];
    AcksOf(c.hist, c.servers.Keys);
    assert ServerOk(c.hist, c.servers.Keys, i, s);
    AppliedServer(c.hist, c.servers.Keys, i, s);
    RestartedServer(c.hist, c.servers.Keys, i, s);
    SameTerm(s);
  }

  lemma SameTerm(s: Server)
    requires s.core.WellFormed()
    ensures Applied(s).Term() == s.Term() && Restarted(s).Term() == s.Term()
  {
  }

  // Apart from receiving AppendEntries, or crashing while at it, a step only extends a log.
  lemma OtherSteps(c: Cluster, step: Step, j: NodeId)
    requires Inv(c) && Enabled(c, step) && j in c.servers
    requires !(step.Deliver? && step.m.Append? && step.m.to == j) && !(step.Crash? && step.i == j)
    ensures j in Exec(c, step).servers
    ensures c.servers[j].Log() <= Exec(c, step).servers[j].Log()
    ensures c.servers[j].Term() <= Exec(c, step).servers[j].Term()
    ensures step != Restart(j) ==> Advances(c.servers[j], Exec(c, step).servers[j])
  {
    hide Inv, OnVoteReply, OnAppendReply, Advance, LeaderAppend, Applied, Restarted;
    match step
    case Timeout(i) =>
    case Deliver(VoteRequest(to, args)) => VoteRequestAdvances(c.servers[to], args);
    case Deliver(VoteReply(from, to, t, reply)) =>
      StepInv(c, step);
      VoteReplyAdvances(c, from, to, t, reply, j);
    case Deliver(Append(to, args)) =>
    case Deliver(AppendReply(from, to, t, lastSent, reply)) =>
      StepInv(c, step);
      AppendReplyAdvances(c, from, to, t, lastSent, reply, j);
    case Propose(i, command) =>
      StepInv(c, step);
      LeaderAppendAdvances(c, i, command, j);
    case Replicate(i, peer) =>
    case ApplyCommitted(i) => LocalAdvances(c, i);
    case Restart(i) => LocalAdvances(c, i);
    case Crash(i, args, k) =>
  }

  // Any step: what `j` held and was committed it still holds, terms and commit indices
  // do not go back, except that a restart forgets how far the commit index had come.
  lemma StepKeepsCommitted(c: Cluster, step: Step, j: NodeId, p: Entries)
    requires Inv(c) && Enabled(c, step) && j in c.servers
    requires p <= c.servers[j].Log() && CommittedUpTo(c.hist, p, |p|, c.servers[j].Term())
    ensures j in Exec(c, step).servers && p <= Exec(c, step).servers[j].Log()
    ensures c.servers[j].Term() <= Exec(c, step).servers[j].Term()
    ensures !Reboots(step, j) ==> c.servers[j].core.commitIndex <= Exec(c, step).servers[j].core.commitIndex
  {
    hide Inv, CommittedUpTo, Campaign, OnVoteRequest, OnVoteReply, OnAppend, OnAppendReply, Advance, LeaderAppend,
      Applied, Restarted, Torn;
    if step.Deliver? && step.m.Append? && step.m.to == j {
      assert step == Deliver(Append(j, step.m.append));
      StepInv(c, step);
      AppendKeepsCommitted(c, j, step.m.append, p);
    } else if step.Crash? && step.i == j {
      CrashKeepsCommitted(c, j, step.args, step.k, p);
    } else {
      OtherSteps(c, step, j);
    }
  }

  lemma CrashKeepsCommitted(c: Cluster, j: NodeId, args: AppendEntriesArgs, k: nat, p: Entries)
    requires Inv(c) && j in c.servers && Append(j, args) in c.net
    requires Acceptable(c.servers[j], args) && k <= |args.entries| + 1
    requires p <= c.servers[j].Log() && CommittedUpTo(c.hist, p, |p|, c.servers[j].Term())
    ensures
      var s, s' := c.servers[j], Restarted(Torn(c.servers[j], args, k));
      p <= s'.Log() && s.Term() <= s'.Term()
  {
    var s, h, members := c.servers[j], c.hist, c.servers.Keys;
    AppendSound(c, j, args);
    HistoryHolds(c);
    AcksOf(h, members);
    assert ServerOk(h, members, j, s);
    hide HistoryOk, Covers, CommittedUpTo, MessageOk, Inv, Joined, Restarted, Torn, Acceptable, ServerOk, AcksOk;
    TornServer(h, members, j, s, args, k);
    RestartedServer(h, members, j, Torn(s, args, k));
    RestartedTerm(Torn(s, args, k));
    if s.Term() <= args.term {
      Unchanged(h);
      CommittedKept(h, h, p, p, |p|, s.Term(), args.term);
      LeaderHoldsCommitted(h, members, p, |p|, args.term);
      if Torn(s, args, k).Log() != s.Log() {
        JoinedKeeps(s.Log(), h.leaderLog[args.term], Torn(s, args, k).Log(), p);
      }
    }
  }

  lemma RestartedTerm(s: Server)
    ensures Restarted(s).Term() == s.Term()
  {
  }

  lemma AppendFacts(c: Cluster, j: NodeId, args: AppendEntriesArgs)
    requires Inv(c) && Enabled(c, Deliver(Append(j, args)))
    ensures HistoryOk(c.hist, c.servers.Keys) && AppendOk(c.hist, j, args)
    ensures c.servers[j].core.commitIndex <= |c.servers[j].Log()|
    ensures
      var (n, reply) := c.servers[j].core.HandleAppendEntries(args);
      AppendResult(c.hist, c.servers[j], args, n, reply)
  {
    assert MessageOk(c.hist, c.servers.Keys, Append(j, args));
    ServerFacts(c, j);
    hide HistoryOk, LogOk, VoteOk, RoleOk, KeepsAcks, StoreOk, AppendResult;
    AppendOutcome(c.hist, c.servers.Keys, j, c.servers[j], args);
  }

  lemma AppendKeepsCommitted(c: Cluster, j: NodeId, args: AppendEntriesArgs, p: Entries)
    requires Inv(c) && Enabled(c, Deliver(Append(j, args)))
    requires p <= c.servers[j].Log() && CommittedUpTo(c.hist, p, |p|, c.servers[j].Term())
    ensures
      var s, s' := c.servers[j], OnAppend(c, j, args).servers[j];
      p <= s'.Log() && s.Term() <= s'.Term() && s.core.commitIndex <= s'.core.commitIndex
  {
    hide HistoryOk, Covers, CommittedUpTo, MessageOk, Inv;
    var s, h, members := c.servers[j], c.hist, c.servers.Keys;
    AppendFacts(c, j, args);
    if s.core.HandleAppendEntries(args).1.success {
      CommittedKept(h, h, p, p, |p|, s.Term(), args.term);
      LeaderHoldsCommitted(h, members, p, |p|, args.term);
      MergeKeeps(s.Log(), h.leaderLog[args.term], args.LastSent(), p);
    }
  }

  lemma {:induction false} CommittedPrefixKept(run: seq<Cluster>, a: nat, b: nat, i: NodeId, p: Entries)
    requires IsRun(run) && a <= b < |run| && i in run[a].servers
    requires p <= run[a].servers[i].Log() && CommittedUpTo(run[a].hist, p, |p|, run[a].servers[i].Term())
    ensures i in run[b].servers && p <= run[b].servers[i].Log()
    ensures CommittedUpTo(run[b].hist, p, |p|, run[b].servers[i].Term())
    decreases b
  {
    hide Inv, Grows, CommittedUpTo, Exec, Enabled;
    if a < b {
      CommittedPrefixKept(run, a, b - 1, i, p);
      RunInv(run, b - 1);
      RunGrows(run, b - 1, b);
      assert Follows(run[b - 1], run[b - 1 + 1]);
      var step :| Takes(run[b - 1], step, run[b]);
      StepKeepsCommitted(run[b - 1], step, i, p);
      CommittedKept(run[b - 1].hist, run[b].hist, p, p, |p|, run[b - 1].servers[i].Term(), run[b].servers[i].Term());
    }
  }

  // No run loses a committed entry: what a node had committed at one moment is in its
  // log at every later one, restarts and compaction included.
  lemma CommittedNeverLost(run: seq<Cluster>, a: nat, b: nat, i: NodeId)
    requires IsRun(run) && a <= b < |run| && i in run[a].servers
    ensures
      var s := run[a].servers[i];
      && s.core.commitIndex <= |s.Log()| && i in run[b].servers
      && s.Log()[..s.core.commitIndex] <= run[b].servers[i].Log()
  {
    hide IsRun, Inv, LogOk, RoleOk, StoreOk, LayoutOk, Covers;
    RunInv(run, a);
    ServerFacts(run[a], i);
    var s := run[a].servers[i];
    var p := s.Log()[..s.core.commitIndex];
    Unchanged(run[a].hist);
    CommittedKept(run[a].hist, run[a].hist, s.Log(), p, |p|, s.Term(), s.Term());
    CommittedPrefixKept(run, a, b, i, p);
  }

  // From a leader that has not compacted past the receiver, following its commit index commits
  // nothing the message did not cover: the bound by the follower's own last index never
  // decides the outcome, even with a stale longer tail, and up to the end of the message the
  // logs agree.
  lemma FollowerCommitCovered(run: seq<Cluster>, a: nat, i: NodeId, args: AppendEntriesArgs)
    requires IsRun(run) && a < |run| && i in run[a].servers && Append(i, args) in run[a].net
    ensures args.leaderCommit <= args.LastSent() && Acceptable(run[a].servers[i], args)
    ensures
      var s := run[a].servers[i];
      var (n, reply) := s.core.HandleAppendEntries(args);
      reply.success ==>
        && n.commitIndex == Max(s.core.commitIndex, args.leaderCommit)
        && args.LastSent() <= |s.(core := n).Log()|
        && s.(core := n).Log()[args.prevLogIndex..args.LastSent()] == args.entries
  {
    hide IsRun, Inv, HistoryOk;
    RunInv(run, a);
    DeliverAllowed(run[a], i, args);
    AppendFacts(run[a], i, args);
    var s, l := run[a].servers[i], run[a].hist.leaderLog[args.term];
    var (n, reply) := s.core.HandleAppendEntries(args);
    if reply.success {
      var log := s.(core := n).Log();
      assert l[..args.LastSent()] <= log;
      assert log[args.prevLogIndex..args.LastSent()] == log[..args.LastSent()][args.prevLogIndex..];
      assert l[args.prevLogIndex..args.LastSent()] == l[..args.LastSent()][args.prevLogIndex..];
    }
  }

  // The demands the append handler makes of its caller are always met.
  lemma DeliverAllowed(c: Cluster, i: NodeId, args: AppendEntriesArgs)
    requires Inv(c) && i in c.servers && Append(i, args) in c.net
    ensures Acceptable(c.servers[i], args) && Enabled(c, Deliver(Append(i, args)))
    ensures args.leaderCommit <= args.LastSent()
  {
    hide Inv, HistoryOk, LogOk, RoleOk, ProgressOk, StoreOk;
    ServerFacts(c, i);
    HistoryHolds(c);
    Unchanged(c.hist);
    SentByLeader(c, c.hist, i, args);
    var l := c.hist.leaderLog[args.term];
    forall k | 0 <= k < |args.entries| ensures args.entries[k].index == args.prevLogIndex + 1 + k {
      assert args.entries[k] == l[args.prevLogIndex + k];
    }
  }

  // The guard on sending holds back exactly the messages that have a gap or carry a commit
  // index they do not cover, which the program sends once it has compacted past the peer.
  lemma SendGuardExact(run: seq<Cluster>, a: nat, i: NodeId, peer: NodeId)
    requires IsRun(run) && a < |run| && i in run[a].servers
    requires run[a].servers[i].core.role == Leader && peer in run[a].servers[i].core.peers
    ensures
      var args := run[a].servers[i].core.BuildAppendEntries(peer);
      Enabled(run[a], Replicate(i, peer))
      <==> Contiguous(args.entries, args.prevLogIndex + 1) && args.leaderCommit <= args.LastSent()
  {
    hide IsRun, Inv, HistoryOk, Contiguous, Node.BuildAppendEntries;
    RunInv(run, a);
    ServerFacts(run[a], i);
    Views(run[a].servers.Keys, i, run[a].servers[i]);
    IndicesOrdered(run, a, i);
    SoundSendIff(run[a].servers[i].core, peer);
  }

  // ---- what sending to a peer behind the snapshot would do ----

  // Two servers hold the same entries up to the smaller of their commit indices.
  ghost predicate CommitsMatch(s: Server, f: Server) {
    var upTo := Min(s.core.commitIndex, f.core.commitIndex);
    upTo <= |s.Log()| && upTo <= |f.Log()| && s.Log()[..upTo] == f.Log()[..upTo]
  }

  // A message makes its receiver commit nothing new, or up to an entry the sender has as well.
  ghost predicate CommitsShared(s: Server, f: Server, args: AppendEntriesArgs) {
    var x := Min(s.core.commitIndex, |f.Log()|);
    || f.Term() > s.Term() || !f.core.Accepts(args) || s.core.commitIndex <= f.core.commitIndex
    || x == 0 || (x <= |s.Log()| && f.Log()[x - 1].term == s.Log()[x - 1].term)
  }

  ghost predicate HandledSafely(s: Server, f: Server, args: AppendEntriesArgs)
    requires f.core.CanHandle(args)
  {
    CommitsMatch(s, f.(core := f.core.HandleAppendEntries(args).0))
  }

  // Sent without any guard, a leader's contiguous message keeps the two logs the same up to the
  // smaller commit index if and only if the peer's next entry is still held or what the peer
  // would commit ends in an entry of the leader's term there.
  lemma SafeSendIff(run: seq<Cluster>, a: nat, i: NodeId, j: NodeId)
    requires IsRun(run) && a < |run| && i in run[a].servers && j in run[a].servers
    requires run[a].servers[i].core.role == Leader && j in run[a].servers[i].core.peers
    requires
      var args := run[a].servers[i].core.BuildAppendEntries(j);
      Contiguous(args.entries, args.prevLogIndex + 1)
    ensures
      var s, f := run[a].servers[i], run[a].servers[j];
      var args := s.core.BuildAppendEntries(j);
      && f.core.CanHandle(args)
      && (HandledSafely(s, f, args) <==> s.core.NextFor(j) >= s.core.BaseIndex() || CommitsShared(s, f, args))
  {
    hide IsRun, Inv, HistoryOk, CommitsShared, HandledSafely, Node.BuildAppendEntries, Contiguous;
    var s, f := run[a].servers[i], run[a].servers[j];
    if s.core.NextFor(j) >= s.core.BaseIndex() {
      assert Enabled(run[a], Replicate(i, j));
      GuardedSafe(run, a, i, j);
    } else {
      BehindIsEmpty(run, a, i, j);
      EmptySafeIff(run, a, i, j, s.core.BuildAppendEntries(j));
    }
  }

  // Where the guard holds, sending and handling are steps of the run.
  lemma GuardedSafe(run: seq<Cluster>, a: nat, i: NodeId, j: NodeId)
    requires IsRun(run) && a < |run| && i in run[a].servers && j in run[a].servers
    requires Enabled(run[a], Replicate(i, j))
    ensures
      var s, f := run[a].servers[i], run[a].servers[j];
      var args := s.core.BuildAppendEntries(j);
      f.core.CanHandle(args) && HandledSafely(s, f, args)
  {
    var c, args := run[a], run[a].servers[i].core.BuildAppendEntries(j);
    var sent := c.Send({Append(j, args)});
    assert Takes(c, Replicate(i, j), sent);
    NotOwnPeer(run, a, i);
    hide IsRun, Enabled, Exec, OnAppend, Takes, Node.BuildAppendEntries, Node.HandleAppendEntries, Acceptable;
    CutRun(run, a);
    RunGoesOn(run[..a + 1], Replicate(i, j), sent);
    var run' := run[..a + 1] + [sent];
    NeverBlocked(run', a + 1, Deliver(Append(j, args)));
    Delivered(sent, j, args);
    AppendTaken(sent, j, args);
    RunGoesOn(run', Deliver(Append(j, args)), OnAppend(sent, j, args));
    StateMachineSafety(run' + [OnAppend(sent, j, args)], a + 2, a + 2, i, j);
  }

  lemma Delivered(c: Cluster, i: NodeId, args: AppendEntriesArgs)
    requires Enabled(c, Deliver(Append(i, args)))
    ensures Acceptable(c.servers[i], args) && c.servers[i].core.CanHandle(args)
  {
  }

  lemma NotOwnPeer(run: seq<Cluster>, a: nat, i: NodeId)
    requires IsRun(run) && a < |run| && i in run[a].servers
    ensures i !in run[a].servers[i].core.peers
  {
    hide IsRun, Inv, HistoryOk;
    RunInv(run, a);
    ServerFacts(run[a], i);
  }

  lemma CutRun(run: seq<Cluster>, a: nat)
    requires IsRun(run) && a < |run|
    ensures IsRun(run[..a + 1])
  {
    hide Follows;
  }

  // A contiguous message to a peer behind the snapshot carries no entries.
  lemma BehindIsEmpty(run: seq<Cluster>, a: nat, i: NodeId, j: NodeId)
    requires IsRun(run) && a < |run| && i in run[a].servers
    requires run[a].servers[i].core.role == Leader && j in run[a].servers[i].core.peers
    requires run[a].servers[i].core.NextFor(j) < run[a].servers[i].core.BaseIndex()
    requires
      var args := run[a].servers[i].core.BuildAppendEntries(j);
      Contiguous(args.entries, args.prevLogIndex + 1)
    ensures
      var n := run[a].servers[i].core;
      var args := n.BuildAppendEntries(j);
      args.entries == [] && args.term == n.hard.currentTerm && args.leaderCommit == n.commitIndex
  {
    hide IsRun, Inv, HistoryOk, Contiguous;
    RunInv(run, a);
    ServerFacts(run[a], i);
    BuildContiguousIff(run[a].servers[i].core, j);
  }

  // A message without entries changes nothing but terms, roles and the commit index.
  lemma EmptyHandled(n: Node, args: AppendEntriesArgs)
    requires n.WellFormed() && args.entries == []
    ensures n.CanHandle(args)
    ensures
      var n', taken := n.HandleAppendEntries(args).0, args.term >= n.hard.currentTerm && n.Accepts(args);
      && n'.entries == n.entries
      && n'.commitIndex ==
           if taken && args.leaderCommit > n.commitIndex then Min(args.leaderCommit, n.LastLogIndex())
           else n.commitIndex
  {
    if n.Accepts(args) { EmptyStored(n.Recognise(args), args); }
    hide Node.Store, Node.WellFormed;
  }

  lemma EmptyStored(n: Node, args: AppendEntriesArgs)
    requires n.WellFormed() && args.entries == [] && args.prevLogIndex <= n.LastLogIndex()
    ensures n.Extends(args)
    ensures
      var upTo := Min(args.leaderCommit, n.LastLogIndex());
      n.Store(args) == if args.leaderCommit > n.commitIndex then n.(commitIndex := upTo) else n
  {
    hide Splice;
    SpliceReaches(n.entries, n.snapshot.lastIncludedIndex, args.prevLogIndex, []);
  }

  lemma EmptySafeIff(run: seq<Cluster>, a: nat, i: NodeId, j: NodeId, args: AppendEntriesArgs)
    requires IsRun(run) && a < |run| && i in run[a].servers && j in run[a].servers && args.entries == []
    requires args.term == run[a].servers[i].Term() && args.leaderCommit == run[a].servers[i].core.commitIndex
    ensures
      var s, f := run[a].servers[i], run[a].servers[j];
      f.core.CanHandle(args) && (HandledSafely(s, f, args) <==> CommitsShared(s, f, args))
  {
    var s, f := run[a].servers[i], run[a].servers[j];
    hide IsRun, CommitsShared, HandledSafely, Node.WellFormed, Node.CanHandle, Node.LastLogIndex;
    LogBounds(run, a, i);
    LogBounds(run, a, j);
    StateMachineSafety(run, a, a, i, j);
    var x := Min(s.core.commitIndex, |f.Log()|);
    if x > 0 && f.Log()[x - 1].term == s.Log()[x - 1].term { LogsMatch(run, a, a, j, i, x - 1); }
    EmptyOutcome(s, f, args);
  }

  lemma LogBounds(run: seq<Cluster>, a: nat, i: NodeId)
    requires IsRun(run) && a < |run| && i in run[a].servers
    ensures
      var s := run[a].servers[i];
      s.core.WellFormed() && s.core.LastLogIndex() == |s.Log()| && s.core.commitIndex <= |s.Log()|
  {
    hide IsRun, Inv, HistoryOk, LogOk, RoleOk, ProgressOk, StoreOk;
    RunInv(run, a);
    ServerFacts(run[a], i);
    Views(run[a].servers.Keys, i, run[a].servers[i]);
    IndicesOrdered(run, a, i);
  }

  // The same of two servers whose logs match.
  lemma EmptyOutcome(s: Server, f: Server, args: AppendEntriesArgs)
    requires f.core.WellFormed() && f.core.LastLogIndex() == |f.Log()| && args.entries == []
    requires args.term == s.Term() && args.leaderCommit == s.core.commitIndex <= |s.Log()| && CommitsMatch(s, f)
    requires
      var x := Min(s.core.commitIndex, |f.Log()|);
      x > 0 && f.Log()[x - 1].term == s.Log()[x - 1].term ==> f.Log()[..x] == s.Log()[..x]
    ensures f.core.CanHandle(args) && (HandledSafely(s, f, args) <==> CommitsShared(s, f, args))
  {
    EmptyHandled(f.core, args);
    hide Node.HandleAppendEntries, Node.CanHandle, Node.Accepts, Node.WellFormed;
    var f', x := f.(core := f.core.HandleAppendEntries(args).0), Min(s.core.commitIndex, |f.Log()|);
    assert f'.Log() == f.Log();
    if x > 0 && f'.core.commitIndex == x && f.Log()[..x] == s.Log()[..x] {
      assert f.Log()[x - 1] == f.Log()[..x][x - 1] == s.Log()[x - 1];
    }
  }

  // Every message in flight can be delivered, and a leader that has not compacted can send to
  // every peer; only a leader that has compacted past a peer is held back.
  lemma NeverBlocked(run: seq<Cluster>, a: nat, step: Step)
    requires IsRun(run) && a < |run|
    requires match step
      case Deliver(m) => m in run[a].net && m.to in run[a].servers
      case Replicate(i, peer) =>
        && i in run[a].servers && run[a].servers[i].core.role == Leader && peer in run[a].servers[i].core.peers
        && run[a].servers[i].core.snapshot.lastIncludedIndex == 0
      case Propose(i, _) => i in run[a].servers && run[a].servers[i].core.role == Leader
      case Crash(i, args, k) => i in run[a].servers && Append(i, args) in run[a].net && k <= |args.entries| + 1
      case _ => step.i in run[a].servers
    ensures Enabled(run[a], step)
  {
    hide IsRun, Inv;
    RunInv(run, a);
    match step
    case Deliver(m) => if m.Append? { DeliverAllowed(run[a], m.to, m.append); }
    case Replicate(i, _) => ServerFacts(run[a], i);
    case ApplyCommitted(i) => ServerFacts(run[a], i);
    case Crash(i, args, _) => DeliverAllowed(run[a], i, args);
    case _ =>
  }

  // The same-term branch that makes the receiver a follower never meets a leader.
  lemma NeverDemotesLeader(run: seq<Cluster>, a: nat, i: NodeId, args: AppendEntriesArgs)
    requires IsRun(run) && a < |run| && i in run[a].servers && Append(i, args) in run[a].net
    requires args.term == run[a].servers[i].Term()
    ensures run[a].servers[i].core.role != Leader
  {
    hide IsRun, Inv, HistoryOk;
    RunInv(run, a);
    Unchanged(run[a].hist);
    HistoryHolds(run[a]);
    SentByLeader(run[a], run[a].hist, i, args);
    ServerFacts(run[a], i);
  }

  lemma HistoryHolds(c: Cluster)
    requires Inv(c)
    ensures HistoryOk(c.hist, c.servers.Keys)
  {
  }

  // A leader's match index is a true lower bound: while the peer is still in the
  // leader's term it holds that much of the leader's log.
  lemma MatchIsStored(run: seq<Cluster>, a: nat, i: NodeId, p: NodeId)
    requires IsRun(run) && a < |run| && i in run[a].servers && p in run[a].servers
    requires run[a].servers[i].core.role == Leader && run[a].servers[p].Term() == run[a].servers[i].Term()
    ensures
      var s, m := run[a].servers[i], run[a].servers[i].core.MatchOf(p);
      m <= |s.Log()| && s.Log()[..m] <= run[a].servers[p].Log()
  {
    hide IsRun, HistoryOk, LogOk, VoteOk, ProgressOk, StoreOk, LayoutOk, MessageOk;
    RunInv(run, a);
    var c := run[a];
    var s, t := c.servers[i], c.servers[p];
    AcksOf(c.hist, c.servers.Keys);
    assert ServerOk(c.hist, c.servers.Keys, i, s) && ServerOk(c.hist, c.servers.Keys, p, t);
    if s.core.MatchOf(p) > 0 {
      var a := Ack(p, s.Term(), s.core.MatchOf(p));
      assert a in c.hist.acks && AckOk(c.hist, c.servers.Keys, a);
      assert Unbroken(c.hist, Acked(c.hist, a), a.term, t.Term() + 1);
    }
  }
}
