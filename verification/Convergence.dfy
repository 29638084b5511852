/**
  Back-off inside the cluster: log matching holds in every reachable state, so a leader
  that has not compacted always brings a peer up to date.
*/
module Convergence {
  import opened Types
  import opened RaftNode
  import opened Cluster
  import opened Invariant
  import opened ElectionSteps
  import opened Safety
  import opened Theorems
  import opened HandlerRules
  import opened Backoff

  // Two logs that match share, by term, everything below what they share.
  lemma MatchingLogs(run: seq<Cluster>, a: nat, i: NodeId, j: NodeId, d: LogEntry, e: LogEntry)
    requires IsRun(run) && a < |run| && i in run[a].servers && j in run[a].servers
    requires
      var l, n := run[a].servers[i].Log(), run[a].servers[j].core;
      var f, snap := n.entries, n.snapshot.lastIncludedIndex;
      d in l && e in l && d.index <= e.index && snap < e.index && Present(f, snap, e)
    ensures Present(run[a].servers[j].core.entries, run[a].servers[j].core.snapshot.lastIncludedIndex, d)
  {
    LogShape(run, a, i);
    LogShape(run, a, j);
    hide IsRun, Contiguous, Present;
    var l, t := run[a].servers[i].Log(), run[a].servers[j];
    var y := HeldAt(l, t.dropped, t.core.entries, e);
    LogsMatch(run, a, a, i, j, y);
    HeldBelow(l, t.dropped, t.core.entries, y, d);
  }

  lemma LogShape(run: seq<Cluster>, a: nat, i: NodeId)
    requires IsRun(run) && a < |run| && i in run[a].servers
    ensures
      var s := run[a].servers[i];
      Contiguous(s.Log(), 1) && |s.dropped| == s.core.snapshot.lastIncludedIndex
  {
    hide IsRun, Inv, HistoryOk, Rooted, RoleOk, ProgressOk, StoreOk;
    RunInv(run, a);
    ServerFacts(run[a], i);
    RootedIndices(run[a].hist, run[a].servers[i].Log());
  }

  lemma HeldAt(l: Entries, dropped: Entries, entries: Entries, e: LogEntry) returns (y: nat)
    requires Contiguous(l, 1) && e in l && |dropped| < e.index && Present(entries, |dropped|, e)
    ensures y < |l| && l[y] == e && y < |dropped + entries| && (dropped + entries)[y].term == e.term
  {
    y :| 0 <= y < |l| && l[y] == e;
    assert (dropped + entries)[y] == entries[y - |dropped|];
  }

  lemma HeldBelow(l: Entries, dropped: Entries, entries: Entries, y: nat, d: LogEntry)
    requires Contiguous(l, 1) && y < |l| && y < |dropped + entries| && l[..y + 1] == (dropped + entries)[..y + 1]
    requires d in l && d.index <= y + 1
    ensures Present(entries, |dropped|, d)
  {
    var x :| 0 <= x < |l| && l[x] == d;
    if x >= |dropped| {
      assert l[..y + 1][x] == (dropped + entries)[..y + 1][x] && (dropped + entries)[x] == entries[x - |dropped|];
    }
  }

  lemma ClusterReady(c: Cluster, i: NodeId, j: NodeId)
    requires Inv(c) && i in c.servers && j in c.servers
    requires c.servers[i].core.role == Leader && c.servers[i].core.snapshot.lastIncludedIndex == 0
    requires c.servers[j].Term() <= c.servers[i].Term()
    ensures Ready(Pair(c.servers[i].core, c.servers[j].core), j)
    ensures c.servers[i].Log() == c.servers[i].core.entries
  {
    hide Inv, HistoryOk, LogOk, ProgressOk, StoreOk;
    ServerFacts(c, i);
    ServerFacts(c, j);
    Views(c.servers.Keys, i, c.servers[i]);
  }

  // In every reachable state a leader that has not compacted shares with any node, by term,
  // everything below what the two share: what `CatchUpConverges` asks for always holds.
  lemma ReachableSharesDown(run: seq<Cluster>, a: nat, i: NodeId, j: NodeId)
    requires IsRun(run) && a < |run| && i in run[a].servers && j in run[a].servers
    requires run[a].servers[i].core.role == Leader && run[a].servers[i].core.snapshot.lastIncludedIndex == 0
    requires run[a].servers[j].Term() <= run[a].servers[i].Term()
    ensures
      var p := Pair(run[a].servers[i].core, run[a].servers[j].core);
      Ready(p, j) && SharesDown(p)
  {
    hide IsRun, Inv, Ready, Present;
    RunInv(run, a);
    ClusterReady(run[a], i, j);
    var p := Pair(run[a].servers[i].core, run[a].servers[j].core);
    var f, snap := p.follower.entries, p.follower.snapshot.lastIncludedIndex;
    forall d, e | d in p.leader.entries && e in p.leader.entries && d.index <= e.index && snap < e.index
                  && Present(f, snap, e)
      ensures Present(f, snap, d)
    {
      MatchingLogs(run, a, i, j, d, e);
    }
  }

  // ---- a round as three steps of the cluster ----

  // A leader that still has its whole log, and another node of no later term.
  ghost predicate CanTeach(c: Cluster, i: NodeId, j: NodeId) {
    && i in c.servers && j in c.servers && i != j
    && c.servers[i].core.role == Leader && c.servers[i].core.snapshot.lastIncludedIndex == 0
    && c.servers[j].Term() <= c.servers[i].Term()
  }

  lemma SendStep(c: Cluster, i: NodeId, j: NodeId) returns (c': Cluster)
    requires Inv(c) && CanTeach(c, i, j)
    ensures Takes(c, Replicate(i, j), c') && c'.servers == c.servers
    ensures Append(j, c.servers[i].core.BuildAppendEntries(j)) in c'.net
  {
    hide Inv, HistoryOk, LogOk, ProgressOk, StoreOk, Node.BuildAppendEntries;
    ServerFacts(c, i);
    ServerFacts(c, j);
    c' := Exec(c, Replicate(i, j));
  }

  // The follower handles the message and answers.
  lemma HandleStep(c: Cluster, i: NodeId, j: NodeId, args: AppendEntriesArgs) returns (c': Cluster)
    requires Inv(c) && CanTeach(c, i, j) && Append(j, args) in c.net && args.leaderId == i
    ensures Acceptable(c.servers[j], args) && Takes(c, Deliver(Append(j, args)), c')
    ensures
      var s, (n, reply) := c.servers[j], c.servers[j].core.HandleAppendEntries(args);
      && c'.servers == c.servers[j := s.(core := n)]
      && AppendReply(j, i, args.term, args.LastSent(), reply) in c'.net
  {
    DeliverAllowed(c, j, args);
    hide Inv, Node.HandleAppendEntries, OnAppend, Takes, Enabled;
    AppendTaken(c, j, args);
    c' := OnAppend(c, j, args);
  }

  // The leader folds the answer in.
  lemma RecordStep(c: Cluster, i: NodeId, j: NodeId, lastSent: LogIndex, reply: AppendEntriesReply)
    returns (c': Cluster)
    requires i in c.servers && c.servers[i].core.role == Leader && reply.term <= c.servers[i].Term()
    requires AppendReply(j, i, c.servers[i].Term(), lastSent, reply) in c.net
    ensures Takes(c, Deliver(AppendReply(j, i, c.servers[i].Term(), lastSent, reply)), c')
    ensures
      var s := c.servers[i];
      c'.servers == c.servers[i := s.(core := s.core.OnAppendEntriesReply(j, lastSent, reply))]
  {
    hide Node.AdvanceCommitIndex, Node.RecordReply;
    c' := Exec(c, Deliver(AppendReply(j, i, c.servers[i].Term(), lastSent, reply)));
  }

  // What is known of the message and its answer.
  lemma SentFacts(p: Pair, peer: NodeId)
    requires Ready(p, peer)
    ensures
      var args := Sent(p, peer);
      && p.follower.CanHandle(args) && args.term == p.leader.hard.currentTerm && args.leaderId == p.leader.id
      && args.LastSent() == |p.leader.entries| == p.leader.LastLogIndex() && args.leaderCommit == p.leader.commitIndex
      && Answer(p, peer).1.term == args.term == Answer(p, peer).0.hard.currentTerm
      && p.leader.NextFor(peer) >= 1
  {
    hide Node.HandleAppendEntries, Node.CanHandle, Contiguous, Node.TermAt, Node.EntriesFrom;
    SentIsTail(p, peer);
    ContiguousHandled(p.follower, Sent(p, peer));
    AppendAnswer(p.follower, Sent(p, peer));
  }

  lemma ContiguousHandled(n: Node, args: AppendEntriesArgs)
    requires n.WellFormed() && Contiguous(args.entries, args.prevLogIndex + 1)
    ensures n.CanHandle(args)
  {
    StartsAtCheck(args);
  }

  // A round leaves what the leader knows of the other peers.
  lemma RoundAside(p: Pair, peer: NodeId)
    requires Ready(p, peer)
    ensures forall k: NodeId :: k != peer ==> Round(p, peer).leader.MatchOf(k) == p.leader.MatchOf(k)
    ensures !Answer(p, peer).1.success ==> Round(p, peer).leader.commitIndex == p.leader.commitIndex
  {
    hide Answer, Node.BuildAppendEntries, Node.OnAppendEntriesReply, Node.MatchOf;
    ReplyRule(p.leader, peer, Sent(p, peer).LastSent(), Answer(p, peer).1);
  }

  // A round leaves the leader leading, with the same term, log and snapshot.
  lemma RoundLeader(p: Pair, peer: NodeId)
    requires Ready(p, peer)
    ensures
      var q := Round(p, peer);
      && q.leader.role == Leader && q.leader.hard == p.leader.hard && q.leader.entries == p.leader.entries
      && q.leader.snapshot == p.leader.snapshot && q.follower.hard.currentTerm == p.leader.hard.currentTerm
  {
    hide Node.HandleAppendEntries, Node.OnAppendEntriesReply, Node.BuildAppendEntries, Answer, Contiguous;
    SentFacts(p, peer);
    ReplyRecorded(p.leader, peer, Sent(p, peer).LastSent(), Answer(p, peer).1);
  }

  lemma LeaderLogIs(c: Cluster, i: NodeId)
    requires Inv(c) && i in c.servers && c.servers[i].core.role == Leader
    ensures c.servers[i].core.id == i
    ensures c.servers[i].Term() in c.hist.leaderLog && c.hist.leaderLog[c.servers[i].Term()] == c.servers[i].Log()
  {
    hide HistoryOk;
    ServerFacts(c, i);
  }

  // An accepted message that reaches the end of the leader's log leaves the whole of it.
  lemma AcceptedHolds(c: Cluster, i: NodeId, j: NodeId, args: AppendEntriesArgs)
    requires Inv(c) && CanTeach(c, i, j) && Append(j, args) in c.net
    requires args.term == c.servers[i].Term() && args.LastSent() == |c.servers[i].Log()|
    ensures Acceptable(c.servers[j], args)
    ensures
      var s, (n, reply) := c.servers[j], c.servers[j].core.HandleAppendEntries(args);
      reply.success ==> c.servers[i].Log() <= s.(core := n).Log() && args.leaderCommit <= n.commitIndex
  {
    hide Inv, HistoryOk, Node.HandleAppendEntries;
    DeliverAllowed(c, j, args);
    AppendFacts(c, j, args);
    CommitFollows(c.servers[j], args);
    LeaderLogIs(c, i);
    var l := c.servers[i].Log();
    assert l[..|l|] == l;
  }

  // A message that covers its commit index carries it over.
  lemma CommitFollows(s: Server, args: AppendEntriesArgs)
    requires Acceptable(s, args) && args.leaderCommit <= args.LastSent()
    ensures
      var (n, reply) := s.core.HandleAppendEntries(args);
      reply.success ==> args.leaderCommit <= n.commitIndex
  {
    AppendEffect(s.core, args);
    AppendAnswer(s.core, args);
    StartsAtCheck(args);
    if s.core.HandleAppendEntries(args).1.success { AppendReaches(s.core, args); }
    hide Node.HandleAppendEntries;
  }

  lemma AppendReaches(n: Node, args: AppendEntriesArgs)
    requires n.CanHandle(args) && n.HandleAppendEntries(args).1.success && args.Start() == args.prevLogIndex
    ensures n.HandleAppendEntries(args).0.LastLogIndex() >= args.LastSent()
  {
    hide Splice;
    var n' := n.HandleAppendEntries(args).0;
    assert n'.WellFormed() && n'.snapshot.lastIncludedIndex + |n'.entries| >= args.LastSent();
  }

  // A round of the exchange, as three steps.
  lemma RoundSteps(c: Cluster, i: NodeId, j: NodeId) returns (c1: Cluster, c2: Cluster, c3: Cluster, steps: seq<Step>)
    requires Inv(c) && CanTeach(c, i, j)
    ensures |steps| == 3 && Takes(c, steps[0], c1) && Takes(c1, steps[1], c2) && Takes(c2, steps[2], c3)
    ensures i in c3.servers && j in c3.servers && c3.servers[i].dropped == c.servers[i].dropped
    ensures c3.servers == c.servers[j := c3.servers[j]][i := c3.servers[i]]
    ensures
      var p := Pair(c.servers[i].core, c.servers[j].core);
      && Ready(p, j) && Pair(c3.servers[i].core, c3.servers[j].core) == Round(p, j)
      && (Answer(p, j).1.success ==>
            c.servers[i].Log() <= c3.servers[j].Log() && p.leader.commitIndex <= c3.servers[j].core.commitIndex)
  {
    hide Inv, Ready, Node.HandleAppendEntries, Node.OnAppendEntriesReply, Node.BuildAppendEntries, Acceptable, Enabled,
      Exec;
    ClusterReady(c, i, j);
    LeaderLogIs(c, i);
    var p := Pair(c.servers[i].core, c.servers[j].core);
    var args, reply := Sent(p, j), Answer(p, j).1;
    SentFacts(p, j);
    c1 := SendStep(c, i, j);
    StepInv(c, Replicate(i, j));
    AcceptedHolds(c1, i, j, args);
    c2 := HandleStep(c1, i, j, args);
    c3 := RecordStep(c2, i, j, args.LastSent(), reply);
    steps := [Replicate(i, j), Deliver(Append(j, args)), Deliver(AppendReply(j, i, args.term, args.LastSent(), reply))];
  }

  // The same leader leads with the same log, the node's log starts with all of it and is
  // committed as far as the leader's was, and the leader knows.
  ghost predicate Taught(c: Cluster, c': Cluster, i: NodeId, j: NodeId)
    requires i in c.servers
  {
    && i in c'.servers && j in c'.servers
    && c'.servers[i].core.role == Leader && c'.servers[i].Term() == c.servers[i].Term()
    && c'.servers[i].Log() == c.servers[i].Log() <= c'.servers[j].Log()
    && c'.servers[i].core.MatchOf(j) == |c.servers[i].Log()|
    && c.servers[i].core.commitIndex <= c'.servers[j].core.commitIndex
  }

  // Everyone else is where they were, and so is what the leader knows of them.
  ghost predicate OthersAside(c: Cluster, c': Cluster, i: NodeId, j: NodeId)
    requires i in c.servers && i in c'.servers
  {
    && c'.servers.Keys == c.servers.Keys
    && (forall k :: k in c.servers && k != i && k != j ==> c'.servers[k] == c.servers[k])
    && forall p: NodeId :: p != j ==> c'.servers[i].core.MatchOf(p) == c.servers[i].core.MatchOf(p)
  }

  // A round either teaches or lowers the next index and can be repeated.
  lemma RoundOutcome(c: Cluster, c': Cluster, i: NodeId, j: NodeId)
    requires Inv(c) && CanTeach(c, i, j) && i in c'.servers && j in c'.servers
    requires c'.servers[i].dropped == c.servers[i].dropped
    requires c'.servers == c.servers[j := c'.servers[j]][i := c'.servers[i]]
    requires
      var p := Pair(c.servers[i].core, c.servers[j].core);
      && Ready(p, j) && Pair(c'.servers[i].core, c'.servers[j].core) == Round(p, j)
      && (Answer(p, j).1.success ==>
            c.servers[i].Log() <= c'.servers[j].Log() && p.leader.commitIndex <= c'.servers[j].core.commitIndex)
    ensures CanTeach(c', i, j) && c'.servers[i].Log() == c.servers[i].Log()
    ensures c'.servers[i].Term() == c.servers[i].Term()
    ensures c.servers[i].core.NextFor(j) >= 1
    ensures
      || Taught(c, c', i, j)
      || (c'.servers[i].core.NextFor(j) < c.servers[i].core.NextFor(j)
          && c'.servers[i].core.commitIndex == c.servers[i].core.commitIndex)
    ensures OthersAside(c, c', i, j)
  {
    hide Inv, Ready, Answer, Round, Node.NextFor, Node.MatchOf, Holds, HoldsBelow;
    RoundAside(Pair(c.servers[i].core, c.servers[j].core), j);
    var p := Pair(c.servers[i].core, c.servers[j].core);
    ClusterReady(c, i, j);
    RoundLeader(p, j);
    SentFacts(p, j);
    if Answer(p, j).1.success {
      AcceptedRound(p, j);
    } else {
      RejectedRound(p, j);
    }
  }

  lemma RoundRun(run: seq<Cluster>, i: NodeId, j: NodeId) returns (run': seq<Cluster>)
    requires IsRun(run) && CanTeach(run[|run| - 1], i, j)
    ensures IsRun(run') && run <= run' && |run'| == |run| + 3
    ensures
      var c, c' := run[|run| - 1], run'[|run'| - 1];
      && CanTeach(c', i, j) && c'.servers[i].Log() == c.servers[i].Log() && c'.servers[i].Term() == c.servers[i].Term()
      && c.servers[i].core.NextFor(j) >= 1
      && (Taught(c, c', i, j)
          || (c'.servers[i].core.NextFor(j) < c.servers[i].core.NextFor(j)
              && c'.servers[i].core.commitIndex == c.servers[i].core.commitIndex))
      && OthersAside(c, c', i, j)
  {
    assert |run| > 0;
    hide Inv, IsRun, Ready, Takes, Answer, Round, Node.NextFor, Taught, OthersAside;
    var c := run[|run| - 1];
    RunInv(run, |run| - 1);
    var c1, c2, c3, steps := RoundSteps(c, i, j);
    RoundOutcome(c, c3, i, j);
    run' := ThreeSteps(run, c1, c2, c3, steps);
  }

  lemma ThreeSteps(run: seq<Cluster>, c1: Cluster, c2: Cluster, c3: Cluster, steps: seq<Step>)
    returns (run': seq<Cluster>)
    requires IsRun(run) && |steps| == 3
    requires Takes(run[|run| - 1], steps[0], c1) && Takes(c1, steps[1], c2) && Takes(c2, steps[2], c3)
    ensures IsRun(run') && run <= run' && |run'| == |run| + 3 && run'[|run'| - 1] == c3
  {
    assert |run| > 0;
    hide IsRun, Takes;
    RunGoesOn(run, steps[0], c1);
    RunGoesOn(run + [c1], steps[1], c2);
    RunGoesOn(run + [c1] + [c2], steps[2], c3);
    run' := run + [c1] + [c2] + [c3];
  }

  // From every reachable state, a leader that has not compacted brings any other node of no
  // later term up to date in at most three times next_index steps.
  lemma {:induction false} ClusterCatchUp(run: seq<Cluster>, i: NodeId, j: NodeId) returns (run': seq<Cluster>)
    requires IsRun(run) && CanTeach(run[|run| - 1], i, j)
    ensures IsRun(run') && run <= run' && |run'| <= |run| + 3 * run[|run| - 1].servers[i].core.NextFor(j)
    ensures Taught(run[|run| - 1], run'[|run'| - 1], i, j)
    ensures CanTeach(run'[|run'| - 1], i, j) && OthersAside(run[|run| - 1], run'[|run'| - 1], i, j)
    decreases run[|run| - 1].servers[i].core.NextFor(j)
  {
    assert |run| > 0;
    hide IsRun, Node.NextFor, CanTeach;
    var c := run[|run| - 1];
    run' := RoundRun(run, i, j);
    if !Taught(c, run'[|run'| - 1], i, j) {
      run' := ClusterCatchUp(run', i, j);
    }
  }
}
