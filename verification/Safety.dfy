/**
  The safety theorems, over every run of the cluster: with message loss, duplication
  and reordering, restarts, snapshots and compaction.
*/
module Safety {
  import opened Types
  import opened Cluster
  import opened Invariant
  import opened Growth
  import opened ElectionSteps
  import opened ReplicationSteps
  import opened FollowerSteps
  import opened LocalSteps
  import opened CrashSteps

  // ---- the invariant holds on every run ----

  lemma InitInv(c: Cluster)
    requires Init(c)
    ensures Inv(c)
  {
    forall i | i in c.servers ensures ServerOk(c.hist, c.servers.Keys, i, c.servers[i]) {
      assert FreshServer(c.servers.Keys, i, c.servers[i]);
    }
  }

  lemma StepInv(c: Cluster, step: Step)
    requires Inv(c) && Enabled(c, step)
    ensures Inv(Exec(c, step)) && Exec(c, step).servers.Keys == c.servers.Keys
    ensures Grows(c.hist, Exec(c, step).hist)
  {
    hide Inv, Grows;
    match step
    case Timeout(i) => CampaignKeepsInv(c, i);
    case Deliver(VoteRequest(to, args)) => VoteRequestKeepsInv(c, to, args);
    case Deliver(VoteReply(from, to, t, reply)) => VoteReplyInv(c, from, to, t, reply);
    case Deliver(Append(to, args)) => OnAppendKeepsInv(c, to, args);
    case Deliver(AppendReply(from, to, t, lastSent, reply)) => AppendReplyInv(c, from, to, t, lastSent, reply);
    case Propose(i, command) => AppendThenAdvance(c, i, command);
    case Replicate(i, peer) => ReplicateKeepsInv(c, i, peer); Unchanged(c.hist);
    case ApplyCommitted(i) => ApplyKeepsInv(c, i); Unchanged(c.hist);
    case Restart(i) => RestartKeepsInv(c, i); Unchanged(c.hist);
    case Crash(i, args, k) => CrashKeepsInv(c, i, args, k); Unchanged(c.hist);
  }

  lemma AppendThenAdvance(c: Cluster, i: NodeId, command: Command)
    requires Inv(c) && i in c.servers && c.servers[i].core.role == Leader
    ensures
      var c' := Advance(LeaderAppend(c, i, command), i);
      Inv(c') && c'.servers.Keys == c.servers.Keys && Grows(c.hist, c'.hist)
  {
    hide Inv, Grows;
    var c1 := LeaderAppend(c, i, command);
    LeaderAppendKeepsInv(c, i, command);
    AdvanceKeepsInv(c1, i);
    GrowsOn(c.hist, c1.hist, Advance(c1, i).hist);
  }

  lemma VoteReplyInv(c: Cluster, from: NodeId, i: NodeId, t: Term, reply: RequestVoteReply)
    requires Inv(c) && i in c.servers && VoteReply(from, i, t, reply) in c.net
    ensures
      var c' := OnVoteReply(c, from, i, t, reply);
      Inv(c') && c'.servers.Keys == c.servers.Keys && Grows(c.hist, c'.hist)
  {
    hide Inv, Grows;
    Unchanged(c.hist);
    var s := c.servers[i];
    if reply.term > s.Term() {
      StepDownKeepsInv(c, i, reply.term);
    } else if s.core.role == Candidate && s.Term() == t && reply.voteGranted {
      CountedKeepsInv(c, from, i, t, reply);
      var counted := c.Put(i, s.(granted := s.granted + {from}));
      if 1 + |s.granted + {from}| >= s.core.Quorum() {
        WinKeepsInv(counted, i);
        AppendThenAdvance(Win(counted, i), i, Noop);
        GrowsOn(c.hist, Win(counted, i).hist, OnVoteReply(c, from, i, t, reply).hist);
      }
    }
  }

  lemma AppendReplyInv(c: Cluster, from: NodeId, i: NodeId, t: Term, lastSent: LogIndex, reply: AppendEntriesReply)
    requires Inv(c) && i in c.servers && AppendReply(from, i, t, lastSent, reply) in c.net
    ensures
      var c' := OnAppendReply(c, from, i, t, lastSent, reply);
      Inv(c') && c'.servers.Keys == c.servers.Keys && Grows(c.hist, c'.hist)
  {
    hide Inv, Grows;
    Unchanged(c.hist);
    var s := c.servers[i];
    if reply.term > s.Term() {
      StepDownKeepsInv(c, i, reply.term);
    } else if s.core.role == Leader && s.Term() == t {
      RecordReplyKeepsInv(c, from, i, t, lastSent, reply);
      if reply.success { AdvanceKeepsInv(c.Put(i, s.(core := s.core.RecordReply(from, lastSent, reply))), i); }
    }
  }

  lemma {:induction false} RunInv(run: seq<Cluster>, k: nat)
    requires IsRun(run) && k < |run|
    ensures Inv(run[k]) && run[k].servers.Keys == run[0].servers.Keys
  {
    hide Inv;
    if k == 0 {
      InitInv(run[0]);
    } else {
      RunInv(run, k - 1);
      assert Follows(run[k - 1], run[k - 1 + 1]);
      var step :| Takes(run[k - 1], step, run[k]);
      StepInv(run[k - 1], step);
    }
  }

  lemma {:induction false} RunGrows(run: seq<Cluster>, a: nat, b: nat)
    requires IsRun(run) && a <= b < |run|
    ensures Grows(run[a].hist, run[b].hist)
    decreases b
  {
    hide Inv, Grows, Init, Enabled, Exec;
    if a == b {
      Unchanged(run[a].hist);
    } else {
      RunGrows(run, a, b - 1);
      RunInv(run, b - 1);
      assert Follows(run[b - 1], run[b - 1 + 1]);
      var step :| Takes(run[b - 1], step, run[b]);
      StepInv(run[b - 1], step);
      GrowsOn(run[a].hist, run[b - 1].hist, run[b].hist);
    }
  }
}
