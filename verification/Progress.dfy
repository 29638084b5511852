/**
  What a leader never puts off and can always do: commit what a majority holds.
*/
module Progress {
  import opened Types
  import opened Quorum
  import opened RaftNode
  import opened StateMachine
  import opened Cluster
  import opened Invariant
  import opened Completeness
  import opened ElectionSteps
  import opened FollowerSteps
  import opened LocalSteps
  import opened ReplicationSteps
  import opened Safety
  import opened Theorems
  import opened LeaderRules
  import opened HandlerRules
  import opened Steps
  import opened Elections
  import opened Convergence

  // ---- commits ----

  // No entry of the current term above the commit index is held by a quorum, as far as the
  // leader knows.
  ghost predicate CaughtUp(n: Node) {
    forall x: LogIndex :: x > n.commitIndex && n.TermAt(x) == Some(n.hard.currentTerm) ==>
      CountGE(n.Matches(), x) < n.Quorum()
  }

  // What the commit rule needs to leave nothing behind: terms ascend up to the current one,
  // and nobody is ahead of the log.
  ghost predicate Orderly(n: Node) {
    && (forall x: LogIndex, y: LogIndex :: x <= y && n.TermAt(x).Some? && n.TermAt(y).Some? ==>
          n.TermAt(x).value <= n.TermAt(y).value <= n.hard.currentTerm)
    && (forall y: LogIndex :: n.snapshot.lastIncludedIndex <= y <= n.LastLogIndex() ==> n.TermAt(y).Some?)
    && CountGE(n.Matches(), n.LastLogIndex() + 1) == 0
  }

  lemma AdvanceCatchesUp(n: Node)
    requires Orderly(n) && n.snapshot.lastIncludedIndex <= n.commitIndex
    ensures CaughtUp(n.AdvanceCommitIndex())
  {
    hide Node.TermAt, Node.Matches, Node.LastLogIndex, QuorumIndex, CountGE;
    var n', v := n.AdvanceCommitIndex(), QuorumIndex(n.Matches(), n.Quorum());
    hide Node.Quorum;
    CommitOnly(n, n'.commitIndex);
    forall x: LogIndex | n.TermAt(x) == Some(n.hard.currentTerm) && CountGE(n.Matches(), x) >= n.Quorum()
      ensures x <= n'.commitIndex
    {
      if x > n.commitIndex {
        assert x <= v;
        if v > n.LastLogIndex() { CountBounds(n.Matches(), n.LastLogIndex() + 1, v); }
        assert n.TermAt(v) == Some(n.hard.currentTerm);
      }
    }
  }

  // Moving the commit index changes none of what the rule reads.
  lemma CommitOnly(n: Node, commit: LogIndex)
    ensures
      var m := n.(commitIndex := commit);
      && m.Matches() == n.Matches() && m.Quorum() == n.Quorum() && m.LastLogIndex() == n.LastLogIndex()
      && forall x: LogIndex :: m.TermAt(x) == n.TermAt(x)
  {
    assert n.(commitIndex := commit).MatchesOf(n.peers) == n.MatchesOf(n.peers);
  }

  lemma {:induction false} NoneAbove(ms: seq<nat>, top: nat)
    requires forall k :: 0 <= k < |ms| ==> ms[k] <= top
    ensures CountGE(ms, top + 1) == 0
  {
    if ms != [] { NoneAbove(ms[1..], top); }
  }

  // A reachable leader is orderly.
  lemma LeaderOrderly(c: Cluster, i: NodeId)
    requires Inv(c) && i in c.servers && c.servers[i].core.role == Leader
    ensures Orderly(c.servers[i].core)
  {
    hide Inv, HistoryOk, ProgressOk, StoreOk, Rooted;
    var s := c.servers[i];
    ServerFacts(c, i);
    Views(c.servers.Keys, i, s);
    MatchesBounded(c, i);
    hide LayoutOk, RoleOk, Node.TermAt, Node.Matches, Node.LastLogIndex, CountGE;
    forall x: LogIndex, y: LogIndex | x <= y && s.core.TermAt(x).Some? && s.core.TermAt(y).Some?
      ensures s.core.TermAt(x).value <= s.core.TermAt(y).value <= s.core.hard.currentTerm
    {
      assert x <= |s.Log()| && y <= |s.Log()|;
      TermsOrdered(c, i, x, y);
    }
  }

  lemma TermsOrdered(c: Cluster, i: NodeId, x: LogIndex, y: LogIndex)
    requires Inv(c) && i in c.servers && x <= y <= |c.servers[i].Log()|
    ensures
      var s := c.servers[i];
      TermBefore(s.Log(), x) <= TermBefore(s.Log(), y) <= s.Term()
  {
    hide Inv, HistoryOk, CampaignsOk, ElectionsOk, AcksOk, LayoutOk, RoleOk, ProgressOk, StoreOk, Rooted;
    ServerFacts(c, i);
    HistoryHolds(c);
    AcksOf(c.hist, c.servers.Keys);
    var log := c.servers[i].Log();
    PrefixRooted(c.hist, log, y);
    TermsAscend(c.hist, c.servers.Keys, log[..x], log[..y]);
  }

  lemma MatchesBounded(c: Cluster, i: NodeId)
    requires Inv(c) && i in c.servers && c.servers[i].core.role == Leader
    ensures CountGE(c.servers[i].core.Matches(), c.servers[i].core.LastLogIndex() + 1) == 0
  {
    hide Inv, HistoryOk, LogOk, ProgressOk, StoreOk;
    var s := c.servers[i];
    ServerFacts(c, i);
    Views(c.servers.Keys, i, s);
    HistoryHolds(c);
    forall k | 0 <= k < |s.core.Matches()| ensures s.core.Matches()[k] <= s.core.LastLogIndex() {
      if k < |s.core.peers| { MatchBounded(c, i, s.core.peers[k]); }
    }
    NoneAbove(s.core.Matches(), s.core.LastLogIndex());
  }

  lemma MatchBounded(c: Cluster, i: NodeId, p: NodeId)
    requires Inv(c) && i in c.servers && c.servers[i].core.role == Leader
    ensures c.servers[i].core.MatchOf(p) <= |c.servers[i].Log()|
  {
    hide Inv, HistoryOk, LogOk, LayoutOk, ProgressOk, StoreOk;
    var s := c.servers[i];
    ServerFacts(c, i);
    HistoryHolds(c);
    AcksOf(c.hist, c.servers.Keys);
    if s.core.MatchOf(p) > 0 { assert AckOk(c.hist, c.servers.Keys, Ack(p, s.Term(), s.core.MatchOf(p))); }
  }

  // How a step can change a leader, or make one: by the commit rule on what it had committed,
  // in fields the rule does not read, or by applying.
  ghost predicate LeaderMoves(n: Node, n': Node) {
    || (n'.snapshot == n.snapshot && n' == n'.(commitIndex := n.commitIndex).AdvanceCommitIndex())
    || (n.role == Leader && n.hard.currentTerm == n'.hard.currentTerm
        && n' == n.(hard := n'.hard, nextIndex := n'.nextIndex))
  }

  lemma StepMovesLeader(c: Cluster, step: Step, i: NodeId)
    requires Enabled(c, step) && i in c.servers && i in Exec(c, step).servers && step != ApplyCommitted(i)
    requires Exec(c, step).servers[i].core.role == Leader
    ensures LeaderMoves(c.servers[i].core, Exec(c, step).servers[i].core)
  {
    hide Node.AdvanceCommitIndex, Splice, TornSplice, Open, Applied, Node.BuildAppendEntries, Node.HandleRequestVote,
      Node.HandleAppendEntries;
    var s := c.servers[i];
    match step
    case Deliver(VoteRequest(to, args)) =>
      if to == i { VoteRule(s.core, args); }
    case Deliver(Append(to, args)) =>
      if to == i { AppendEffect(s.core, args); }
    case Deliver(VoteReply(from, to, requestTerm, reply)) =>
      if to == i { VoteReplyMoves(c, from, i, requestTerm, reply); }
    case Deliver(AppendReply(from, to, requestTerm, lastSent, reply)) =>
      if to == i { AppendReplyMoves(c, from, i, requestTerm, lastSent, reply); }
    case Propose(j, command) =>
      if j == i { AdvanceMoves(s.core, s.core.AppendCommand(command).value); }
    case _ =>
  }

  // The commit rule on a node that differs from `n` in neither snapshot nor commit index.
  lemma AdvanceMoves(n: Node, m: Node)
    requires m.snapshot == n.snapshot && m.commitIndex == n.commitIndex
    ensures LeaderMoves(n, m.AdvanceCommitIndex())
  {
    hide Node.AdvanceCommitIndex;
    CommitRule(m);
  }

  lemma VoteReplyMoves(c: Cluster, from: NodeId, i: NodeId, requestTerm: Term, reply: RequestVoteReply)
    requires i in c.servers && OnVoteReply(c, from, i, requestTerm, reply).servers[i].core.role == Leader
    ensures LeaderMoves(c.servers[i].core, OnVoteReply(c, from, i, requestTerm, reply).servers[i].core)
  {
    hide Node.AdvanceCommitIndex;
    var n := c.servers[i].core;
    AdvanceMoves(n, n.BecomeLeader().AppendCommand(Noop).value);
  }

  lemma AppendReplyMoves(c: Cluster, from: NodeId, i: NodeId, requestTerm: Term, lastSent: LogIndex,
                         reply: AppendEntriesReply)
    requires i in c.servers && OnAppendReply(c, from, i, requestTerm, lastSent, reply).servers[i].core.role == Leader
    ensures LeaderMoves(c.servers[i].core, OnAppendReply(c, from, i, requestTerm, lastSent, reply).servers[i].core)
  {
    hide Node.AdvanceCommitIndex;
    var n := c.servers[i].core;
    AdvanceMoves(n, n.RecordReply(from, lastSent, reply));
  }

  lemma MovesCatchUp(c: Cluster, c': Cluster, i: NodeId)
    requires Inv(c) && Inv(c') && i in c.servers && i in c'.servers && c'.servers[i].core.role == Leader
    requires LeaderMoves(c.servers[i].core, c'.servers[i].core)
    requires c.servers[i].core.role == Leader ==> CaughtUp(c.servers[i].core)
    ensures CaughtUp(c'.servers[i].core)
  {
    hide Inv, HistoryOk, CaughtUp, Orderly, Node.AdvanceCommitIndex;
    var n, n' := c.servers[i].core, c'.servers[i].core;
    if n'.snapshot == n.snapshot && n' == n'.(commitIndex := n.commitIndex).AdvanceCommitIndex() {
      LeaderOrderly(c', i);
      SnapshotCommitted(c, i);
      OrderlyBefore(n', n.commitIndex);
      AdvanceCatchesUp(n'.(commitIndex := n.commitIndex));
    } else {
      SameCaughtUp(n, n');
    }
  }

  lemma SnapshotCommitted(c: Cluster, i: NodeId)
    requires Inv(c) && i in c.servers
    ensures c.servers[i].core.snapshot.lastIncludedIndex <= c.servers[i].core.commitIndex
  {
    hide Inv, HistoryOk, Covers;
    ServerFacts(c, i);
  }

  lemma OrderlyBefore(n: Node, commit: LogIndex)
    requires Orderly(n)
    ensures Orderly(n.(commitIndex := commit))
  {
    CommitOnly(n, commit);
    hide Node.TermAt, Node.Matches, Node.LastLogIndex, CountGE;
  }

  lemma SameCaughtUp(n: Node, n': Node)
    requires CaughtUp(n) && n.hard.currentTerm == n'.hard.currentTerm
    requires n' == n.(hard := n'.hard, nextIndex := n'.nextIndex)
    ensures CaughtUp(n')
  {
    SameCounts(n, n');
    assert forall x: LogIndex :: n'.TermAt(x) == n.TermAt(x);
    hide Node.TermAt, Node.Matches, CountGE;
  }

  lemma SameCounts(n: Node, n': Node)
    requires n'.peers == n.peers && n'.matchIndex == n.matchIndex && n'.LastLogIndex() == n.LastLogIndex()
    ensures n'.Matches() == n.Matches() && n'.Quorum() == n.Quorum()
  {
    assert n'.MatchesOf(n.peers) == n.MatchesOf(n.peers);
  }

  // Applying moves nothing the rule reads above the commit index.
  lemma ApplyCaughtUp(c: Cluster, c': Cluster, i: NodeId)
    requires Inv(c) && Inv(c') && i in c.servers && c.servers[i].core.WellFormed()
    requires i in c'.servers && c'.servers[i] == Applied(c.servers[i]) && CaughtUp(c.servers[i].core)
    ensures CaughtUp(c'.servers[i].core)
  {
    hide Inv, HistoryOk, LogOk, RoleOk, StoreOk, Covers, Applied, CaughtUp;
    AppliedFields(c.servers[i]);
    AppliedEverything(c, i);
    ServerFacts(c, i);
    ServerFacts(c', i);
    Views(c.servers.Keys, i, c.servers[i]);
    Views(c'.servers.Keys, i, c'.servers[i]);
    hide LayoutOk, Node.TermAt, Node.LastLogIndex, Node.Matches;
    AppliedCaughtUp(c.servers[i], c'.servers[i]);
  }

  lemma AppliedFields(s: Server)
    requires s.core.WellFormed()
    ensures
      var n, n' := s.core, Applied(s).core;
      n' == n.(lastApplied := n'.lastApplied, entries := n'.entries, snapshot := n'.snapshot)
  {
    hide ApplyAll, Node.Committed;
  }

  lemma AppliedEverything(c: Cluster, i: NodeId)
    requires Inv(c) && i in c.servers && c.servers[i].core.WellFormed()
    ensures
      var s, s' := c.servers[i], Applied(c.servers[i]);
      s'.Log() == s.Log() && s'.core.commitIndex == s'.core.lastApplied == s.core.commitIndex
  {
    hide HistoryOk, ServerOk, MessageOk;
    AcksOf(c.hist, c.servers.Keys);
    AppliedServer(c.hist, c.servers.Keys, i, c.servers[i]);
  }

  lemma AppliedCaughtUp(s: Server, s': Server)
    requires CaughtUp(s.core) && s'.Log() == s.Log() && s.core.LastLogIndex() == s'.core.LastLogIndex()
    requires
      s'.core == s.core.(lastApplied := s'.core.lastApplied, entries := s'.core.entries, snapshot := s'.core.snapshot)
    requires |s.dropped| <= s.core.commitIndex && |s'.dropped| <= s.core.commitIndex
    requires forall k: nat :: |s.dropped| <= k <= |s.Log()| ==> s.core.TermAt(k) == Some(TermBefore(s.Log(), k))
    requires forall k: nat :: k > |s.Log()| ==> s.core.TermAt(k) == None
    requires forall k: nat :: |s'.dropped| <= k <= |s.Log()| ==> s'.core.TermAt(k) == Some(TermBefore(s.Log(), k))
    requires forall k: nat :: k > |s.Log()| ==> s'.core.TermAt(k) == None
    ensures CaughtUp(s'.core)
  {
    SameCounts(s.core, s'.core);
    hide Node.TermAt, Node.LastLogIndex, Node.Matches, CountGE;
  }

  // In every reachable state the commit index of a leader is where the acknowledgements it has
  // received put it: an entry of its term that more than half of the cluster is known to hold
  // is committed.
  lemma CommitNeverBehind(run: seq<Cluster>, a: nat, i: NodeId, x: LogIndex)
    requires IsRun(run) && a < |run| && i in run[a].servers && run[a].servers[i].core.role == Leader
    requires 0 < x <= |run[a].servers[i].Log()|
    requires run[a].servers[i].Log()[x - 1].term == run[a].servers[i].Term()
    requires 2 * |Reached(run[a].servers[i].core, x)| > |run[a].servers|
    ensures x <= run[a].servers[i].core.commitIndex
  {
    hide IsRun, Inv, CaughtUp, Reached, Node.Matches, CountGE;
    RunInv(run, a);
    AlwaysCaughtUp(run, a, i);
    CountedByMajority(run[a], i, x);
    CaughtUpAt(run[a], i, x);
  }

  lemma CaughtUpAt(c: Cluster, i: NodeId, x: LogIndex)
    requires Inv(c) && i in c.servers && CaughtUp(c.servers[i].core) && 0 < x <= |c.servers[i].Log()|
    requires c.servers[i].Log()[x - 1].term == c.servers[i].Term()
    requires CountGE(c.servers[i].core.Matches(), x) >= c.servers[i].core.Quorum()
    ensures x <= c.servers[i].core.commitIndex
  {
    hide Inv, HistoryOk, LogOk, RoleOk, StoreOk, Covers, Node.Matches, CountGE, Node.Quorum;
    ServerFacts(c, i);
    Views(c.servers.Keys, i, c.servers[i]);
    hide LayoutOk;
    var s := c.servers[i];
    assert |s.dropped| <= x ==> s.core.TermAt(x) == Some(s.Term());
  }

  // What the rule counts is the set of nodes known to hold the entry.
  lemma CountedByMajority(c: Cluster, i: NodeId, x: LogIndex)
    requires Inv(c) && i in c.servers && x <= |c.servers[i].Log()|
    requires 2 * |Reached(c.servers[i].core, x)| > |c.servers|
    ensures CountGE(c.servers[i].core.Matches(), x) >= c.servers[i].core.Quorum()
  {
    hide Inv, HistoryOk, LogOk, RoleOk, ProgressOk, StoreOk;
    ServerFacts(c, i);
    QuorumIsMajority(c.servers.Keys, i, c.servers[i], x);
  }

  lemma {:induction false} AlwaysCaughtUp(run: seq<Cluster>, a: nat, i: NodeId)
    requires IsRun(run) && a < |run| && i in run[a].servers && run[a].servers[i].core.role == Leader
    ensures CaughtUp(run[a].servers[i].core)
    decreases a
  {
    hide Inv, Enabled, Exec, Init, CaughtUp;
    if a == 0 {
      InitFollows(run[0], i);
    } else {
      assert Follows(run[a - 1], run[a - 1 + 1]);
      var step :| Takes(run[a - 1], step, run[a]);
      RunInv(run, a - 1);
      StepInv(run[a - 1], step);
      if run[a - 1].servers[i].core.role == Leader { AlwaysCaughtUp(run, a - 1, i); }
      StepCaughtUp(run[a - 1], step, i);
    }
  }

  lemma StepCaughtUp(c: Cluster, step: Step, i: NodeId)
    requires Inv(c) && Enabled(c, step) && Inv(Exec(c, step)) && i in c.servers && i in Exec(c, step).servers
    requires Exec(c, step).servers[i].core.role == Leader
    requires c.servers[i].core.role == Leader ==> CaughtUp(c.servers[i].core)
    ensures CaughtUp(Exec(c, step).servers[i].core)
  {
    hide Inv, CaughtUp, LeaderMoves, Node.WellFormed;
    if step == ApplyCommitted(i) {
      ApplierLed(c, i);
      ApplyCaughtUp(c, Exec(c, step), i);
    } else {
      hide Enabled, Exec;
      StepMovesLeader(c, step, i);
      MovesCatchUp(c, Exec(c, step), i);
    }
  }

  lemma ApplierLed(c: Cluster, i: NodeId)
    requires Enabled(c, ApplyCommitted(i)) && Exec(c, ApplyCommitted(i)).servers[i].core.role == Leader
    ensures c.servers[i].core.role == Leader && c.servers[i].core.WellFormed()
    ensures Exec(c, ApplyCommitted(i)).servers[i] == Applied(c.servers[i])
  {
    hide Applied;
    AppliedFields(c.servers[i]);
  }

  // A leader that has not compacted, with a majority of nodes in no later term, can commit its
  // whole log: bringing them up to date one after the other suffices.
  lemma CanCommit(run: seq<Cluster>, c: Cluster, i: NodeId, nodes: set<NodeId>)
    returns (run': seq<Cluster>, c': Cluster)
    requires Reaches(run, c) && i !in nodes && 2 * (1 + |nodes|) > |c.servers|
    requires i in c.servers && Teaches(c, i, nodes)
    ensures Reaches(run', c') && run <= run' && |run'| <= |run| + 3 * |nodes| * (|c.servers[i].Log()| + 1)
    ensures i in c'.servers && c'.servers[i].core.role == Leader && c'.servers[i].Term() == c.servers[i].Term()
    ensures c'.servers[i].Log() == c.servers[i].Log() && c'.servers[i].core.commitIndex == |c.servers[i].Log()|
    ensures Teaches(c', i, nodes)
  {
    hide Reaches, Knows;
    NothingKnown(c, i);
    assert {} + nodes == nodes;
    run', c' := TeachesAll(run, c, i, {}, nodes);
    EverythingReached(run', c', i, nodes);
  }

  lemma NothingKnown(c: Cluster, i: NodeId)
    requires i in c.servers
    ensures Knows(c, i, {})
  {
  }

  // And it can take any node of no later term along: one more exchange carries the commit index
  // over, so that the node can apply the leader's whole log.
  lemma CanSpread(run: seq<Cluster>, c: Cluster, i: NodeId, nodes: set<NodeId>, j: NodeId)
    returns (run': seq<Cluster>, c': Cluster)
    requires Reaches(run, c) && i !in nodes && 2 * (1 + |nodes|) > |c.servers|
    requires i in c.servers && Teaches(c, i, nodes) && j in nodes
    ensures Reaches(run', c') && run <= run' && i in c'.servers && j in c'.servers
    ensures
      var log, f := c.servers[i].Log(), c'.servers[j];
      && c'.servers[i].core.role == Leader && c'.servers[i].Log() == log <= f.Log()
      && |log| <= f.core.commitIndex == f.core.lastApplied <= |f.Log()|
      && f.store.table == Table(Fold(f.Log()[..f.core.commitIndex]), f.core.commitIndex)
  {
    hide Reaches, Taught, CanTeach;
    var run1, c1 := CanCommit(run, c, i, nodes);
    var run2, c2 := TaughtAgain(run1, c1, i, j);
    var c3 := AppliesAll(run2, c2, i, j);
    run', c' := run2 + [c3], c3;
  }

  // With everything committed, teaching a node once more carries the commit index over.
  lemma TaughtAgain(run: seq<Cluster>, c: Cluster, i: NodeId, j: NodeId) returns (run': seq<Cluster>, c': Cluster)
    requires Reaches(run, c) && CanTeach(c, i, j) && c.servers[i].core.commitIndex == |c.servers[i].Log()|
    ensures Reaches(run', c') && run <= run' && i != j && i in c'.servers && j in c'.servers
    ensures c'.servers[i].core.role == Leader && c'.servers[i].Log() == c.servers[i].Log() <= c'.servers[j].Log()
    ensures |c.servers[i].Log()| <= c'.servers[j].core.commitIndex
  {
    hide IsRun, Node.MatchOf, Node.NextFor, OthersAside;
    NotEmptyRun(run);
    run' := ClusterCatchUp(run, i, j);
    NotEmptyRun(run');
    c' := run'[|run'| - 1];
  }

  lemma AppliesAll(run: seq<Cluster>, c: Cluster, i: NodeId, j: NodeId) returns (c': Cluster)
    requires Reaches(run, c) && i in c.servers && j in c.servers && i != j
    ensures Reaches(run + [c'], c') && i in c'.servers && c'.servers[i] == c.servers[i] && j in c'.servers
    ensures
      var s, s' := c.servers[j], c'.servers[j];
      && s'.Log() == s.Log() && s'.core.commitIndex == s'.core.lastApplied == s.core.commitIndex <= |s.Log()|
      && s'.store.table == Table(Fold(s.Log()[..s.core.commitIndex]), s.core.commitIndex)
  {
    hide Reaches, Inv, Enabled, Exec, Applied, Fold;
    ReachesInv(run, c);
    NodeSound(c, j);
    AppliedEverything(c, j);
    Applies(c, j);
    c' := Exec(c, ApplyCommitted(j));
    ReachesOn(run, c, ApplyCommitted(j), c');
    ReachesInv(run + [c'], c');
    TableIsFold(c', j);
  }

  lemma NodeSound(c: Cluster, j: NodeId)
    requires Inv(c) && j in c.servers
    ensures c.servers[j].core.WellFormed()
  {
    hide Inv, HistoryOk;
    ServerFacts(c, j);
  }

  lemma TableIsFold(c: Cluster, j: NodeId)
    requires Inv(c) && j in c.servers
    ensures
      var s := c.servers[j];
      && s.core.lastApplied <= |s.Log()|
      && s.store.table == Table(Fold(s.Log()[..s.core.lastApplied]), s.core.lastApplied)
  {
    hide Inv, HistoryOk, Fold;
    ServerFacts(c, j);
  }

  // The leader can bring each of them up to date.
  ghost predicate Teaches(c: Cluster, i: NodeId, nodes: set<NodeId>)
    requires i in c.servers
  {
    && c.servers[i].core.role == Leader && c.servers[i].core.snapshot.lastIncludedIndex == 0
    && forall j :: j in nodes ==> CanTeach(c, i, j)
  }

  // The leader knows that they hold its whole log.
  ghost predicate Knows(c: Cluster, i: NodeId, nodes: set<NodeId>)
    requires i in c.servers
  {
    forall j :: j in nodes ==> c.servers[i].core.MatchOf(j) == |c.servers[i].Log()|
  }

  lemma {:induction false} TeachesAll(run: seq<Cluster>, c: Cluster, i: NodeId, done: set<NodeId>, nodes: set<NodeId>)
    returns (run': seq<Cluster>, c': Cluster)
    requires Reaches(run, c) && i in c.servers && Teaches(c, i, done + nodes) && Knows(c, i, done) && done !! nodes
    ensures Reaches(run', c') && run <= run' && |run'| <= |run| + 3 * |nodes| * (|c.servers[i].Log()| + 1)
    ensures c'.servers.Keys == c.servers.Keys && Teaches(c', i, done + nodes) && Knows(c', i, done + nodes)
    ensures c'.servers[i].Term() == c.servers[i].Term() && c'.servers[i].Log() == c.servers[i].Log()
    decreases |nodes|
  {
    hide Reaches, Knows, Teaches;
    if nodes == {} {
      run', c' := run, c;
      assert done + nodes == done;
    } else {
      var j :| j in nodes;
      var run1, c1 := TeachesOne(run, c, i, done, done + nodes, j);
      assert done + {j} + (nodes - {j}) == done + nodes;
      run', c' := TeachesAll(run1, c1, i, done + {j}, nodes - {j});
      OneLess(|nodes|, |c.servers[i].Log()| + 1);
    }
  }

  lemma OneLess(k: nat, n: nat)
    requires k > 0
    ensures 3 * (k - 1) * n + 3 * n == 3 * k * n
  {
  }

  lemma TeachesOne(run: seq<Cluster>, c: Cluster, i: NodeId, done: set<NodeId>, nodes: set<NodeId>, j: NodeId)
    returns (run': seq<Cluster>, c': Cluster)
    requires Reaches(run, c) && i in c.servers && Teaches(c, i, nodes) && Knows(c, i, done) && j in nodes && j !in done
    ensures Reaches(run', c') && run <= run' && |run'| <= |run| + 3 * (|c.servers[i].Log()| + 1)
    ensures c'.servers.Keys == c.servers.Keys && Teaches(c', i, nodes) && Knows(c', i, done + {j})
    ensures c'.servers[i].Term() == c.servers[i].Term() && c'.servers[i].Log() == c.servers[i].Log()
  {
    hide IsRun, Node.MatchOf, Node.NextFor;
    NotEmptyRun(run);
    run' := ClusterCatchUp(run, i, j);
    NotEmptyRun(run');
    c' := run'[|run'| - 1];
    NextBounded(run, c, i, j);
  }

  lemma NotEmptyRun(run: seq<Cluster>)
    requires IsRun(run)
    ensures |run| > 0
  {
    hide Init, Follows;
  }

  lemma NextBounded(run: seq<Cluster>, c: Cluster, i: NodeId, j: NodeId)
    requires Reaches(run, c) && CanTeach(c, i, j)
    ensures c.servers[i].core.NextFor(j) <= |c.servers[i].Log()| + 1
  {
    hide Reaches, Inv, HistoryOk, LogOk, ProgressOk, StoreOk;
    ReachesInv(run, c);
    ServerFacts(c, i);
    Views(c.servers.Keys, i, c.servers[i]);
  }

  lemma EverythingReached(run: seq<Cluster>, c: Cluster, i: NodeId, nodes: set<NodeId>)
    requires Reaches(run, c) && i in c.servers && c.servers[i].core.role == Leader && i !in nodes
    requires Knows(c, i, nodes) && nodes <= c.servers.Keys && 2 * (1 + |nodes|) > |c.servers|
    ensures c.servers[i].core.commitIndex == |c.servers[i].Log()|
  {
    hide IsRun, Inv, Node.MatchOf;
    NotEmptyRun(run);
    ReachesInv(run, c);
    OwnEntryLast(run, |run| - 1, i);
    ReachedAll(c, i, nodes);
    LogBounds(run, |run| - 1, i);
    CommitNeverBehind(run, |run| - 1, i, |c.servers[i].Log()|);
  }

  lemma ReachedAll(c: Cluster, i: NodeId, nodes: set<NodeId>)
    requires Inv(c) && i in c.servers && Knows(c, i, nodes) && nodes <= c.servers.Keys && i !in nodes
    ensures |Reached(c.servers[i].core, |c.servers[i].Log()|)| >= 1 + |nodes|
  {
    hide Inv, HistoryOk, LogOk, RoleOk, ProgressOk, StoreOk, Node.MatchOf;
    ServerFacts(c, i);
    var reached := Reached(c.servers[i].core, |c.servers[i].Log()|);
    assert {i} + nodes <= reached;
    SubsetSize({i} + nodes, reached);
  }

  // ---- a leader's last entry is its own ----

  ghost predicate EndsOwn(s: Server) {
    s.Log() != [] && s.Log()[|s.Log()| - 1].term == s.Term()
  }

  lemma {:induction false} OwnEntryLast(run: seq<Cluster>, a: nat, i: NodeId)
    requires IsRun(run) && a < |run| && i in run[a].servers && run[a].servers[i].core.role == Leader
    ensures EndsOwn(run[a].servers[i])
    decreases a
  {
    hide Inv, Enabled, Exec, Init, EndsOwn;
    if a == 0 {
      InitFollows(run[0], i);
    } else {
      assert Follows(run[a - 1], run[a - 1 + 1]);
      var step :| Takes(run[a - 1], step, run[a]);
      RunInv(run, a - 1);
      StepInv(run[a - 1], step);
      if run[a - 1].servers[i].core.role == Leader { OwnEntryLast(run, a - 1, i); }
      StepEndsOwn(run[a - 1], step, i);
    }
  }

  lemma StepEndsOwn(c: Cluster, step: Step, i: NodeId)
    requires Inv(c) && Enabled(c, step) && i in c.servers && i in Exec(c, step).servers
    requires Exec(c, step).servers[i].core.role == Leader
    requires c.servers[i].core.role == Leader ==> EndsOwn(c.servers[i])
    ensures EndsOwn(Exec(c, step).servers[i])
  {
    hide Inv, EndsOwn, Node.AdvanceCommitIndex, Splice, TornSplice, Open, Applied, Node.BuildAppendEntries,
      Node.HandleRequestVote, Node.HandleAppendEntries;
    var s := c.servers[i];
    match step
    case Deliver(VoteRequest(to, args)) =>
      if to == i {
        VoteRule(s.core, args);
        KeptOwn(s, Exec(c, step).servers[i]);
      }
    case Deliver(Append(to, args)) =>
      if to == i { AppendEffect(s.core, args); }
    case Deliver(VoteReply(from, to, requestTerm, reply)) =>
      if to == i {
        VoteReplyEndsOwn(c, from, i, requestTerm, reply);
      }
    case Deliver(AppendReply(from, to, requestTerm, lastSent, reply)) =>
      if to == i { AppendReplyEndsOwn(c, from, i, requestTerm, lastSent, reply); }
    case Propose(j, command) =>
      if j == i { AppendedOwn(s, s.core, command); }
    case ApplyCommitted(j) =>
      if j == i {
        AppliedFields(s);
        AppliedEverything(c, i);
        KeptOwn(s, Applied(s));
      }
    case _ =>
  }

  lemma KeptOwn(s: Server, s': Server)
    requires s.core.role == Leader ==> EndsOwn(s)
    requires s'.core.role == s.core.role && s'.Log() == s.Log() && s'.Term() == s.Term()
    ensures s.core.role == Leader ==> EndsOwn(s')
  {
  }

  lemma VoteReplyEndsOwn(c: Cluster, from: NodeId, i: NodeId, requestTerm: Term, reply: RequestVoteReply)
    requires i in c.servers && OnVoteReply(c, from, i, requestTerm, reply).servers[i].core.role == Leader
    requires c.servers[i].core.role == Leader ==> EndsOwn(c.servers[i])
    ensures EndsOwn(OnVoteReply(c, from, i, requestTerm, reply).servers[i])
  {
    hide EndsOwn, Node.AdvanceCommitIndex;
    var s := c.servers[i];
    AppendedOwn(s.(granted := s.granted + {from}), s.core.BecomeLeader(), Noop);
  }

  lemma AppendReplyEndsOwn(c: Cluster, from: NodeId, i: NodeId, requestTerm: Term, lastSent: LogIndex,
                           reply: AppendEntriesReply)
    requires i in c.servers && OnAppendReply(c, from, i, requestTerm, lastSent, reply).servers[i].core.role == Leader
    requires c.servers[i].core.role == Leader ==> EndsOwn(c.servers[i])
    ensures EndsOwn(OnAppendReply(c, from, i, requestTerm, lastSent, reply).servers[i])
  {
    hide EndsOwn, Node.AdvanceCommitIndex;
    var s := c.servers[i];
    CommitRule(s.core.RecordReply(from, lastSent, reply));
    KeptOwn(s, OnAppendReply(c, from, i, requestTerm, lastSent, reply).servers[i]);
  }

  lemma AppendedOwn(s: Server, n: Node, command: Command)
    requires n.role == Leader && n.hard == s.core.hard
    ensures EndsOwn(s.(core := n.AppendCommand(command).value.AdvanceCommitIndex()))
  {
    hide Node.AdvanceCommitIndex;
    CommitRule(n.AppendCommand(command).value);
  }
}
