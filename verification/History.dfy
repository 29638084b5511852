/**
  What happened along a run: which acknowledgements were made when, what a late message
  still does, and which entries the state machine was given.
*/
module RunHistory {
  import opened Types
  import opened Quorum
  import opened RaftNode
  import opened StateMachine
  import opened Cluster
  import opened Invariant
  import opened Growth
  import opened ElectionSteps
  import opened LocalSteps
  import opened LeaderRules
  import opened Safety
  import opened Theorems

  // ---- acknowledgements ----

  // Whoever acknowledges does so in its current term.
  ghost predicate AckedNow(c: Cluster, c': Cluster) {
    forall a :: a in c'.hist.acks && a !in c.hist.acks ==> a.node in c'.servers && c'.servers[a.node].Term() == a.term
  }

  lemma AdvanceAcks(c: Cluster, i: NodeId)
    requires i in c.servers
    ensures Advance(c, i).hist.acks == c.hist.acks && Advance(c, i).servers.Keys == c.servers.Keys
    ensures forall j :: j in c.servers ==> Advance(c, i).servers[j].Term() == c.servers[j].Term()
  {
    hide Node.AdvanceCommitIndex;
    assert c.servers[i].core.AdvanceCommitIndex().hard == c.servers[i].core.hard by { SameHard(c.servers[i].core); }
  }

  lemma SameHard(n: Node)
    ensures n.AdvanceCommitIndex().hard == n.hard
  {
  }

  lemma LeaderAppendAcks(c: Cluster, i: NodeId, command: Command)
    requires i in c.servers && c.servers[i].core.role == Leader
    ensures AckedNow(c, Advance(LeaderAppend(c, i, command), i))
    ensures
      var c' := Advance(LeaderAppend(c, i, command), i);
      i in c'.servers && c'.servers[i].Term() == c.servers[i].Term()
  {
    AdvanceAcks(LeaderAppend(c, i, command), i);
    hide Advance;
  }

  lemma VoteReplyAcks(c: Cluster, from: NodeId, i: NodeId, t: Term, reply: RequestVoteReply)
    requires i in c.servers
    ensures AckedNow(c, OnVoteReply(c, from, i, t, reply))
  {
    hide Advance, LeaderAppend;
    var s := c.servers[i];
    if reply.term <= s.Term() && s.core.role == Candidate && s.Term() == t && reply.voteGranted {
      var won := Win(c.Put(i, s.(granted := s.granted + {from})), i);
      LeaderAppendAcks(won, i, Noop);
    }
  }

  lemma AppendAcks(c: Cluster, i: NodeId, args: AppendEntriesArgs)
    requires Inv(c) && Enabled(c, Deliver(Append(i, args)))
    ensures AckedNow(c, OnAppend(c, i, args))
  {
    AppendFacts(c, i, args);
    hide Inv, HistoryOk;
  }

  lemma AppendReplyAcks(c: Cluster, from: NodeId, i: NodeId, t: Term, lastSent: LogIndex, reply: AppendEntriesReply)
    requires i in c.servers
    ensures AckedNow(c, OnAppendReply(c, from, i, t, lastSent, reply))
  {
    hide Advance;
    AdvanceAcks(c.Put(i, c.servers[i].(core := c.servers[i].core.RecordReply(from, lastSent, reply))), i);
  }

  lemma StepAcks(c: Cluster, step: Step)
    requires Inv(c) && Enabled(c, step)
    ensures AckedNow(c, Exec(c, step))
  {
    hide Inv, OnVoteReply, OnAppend, OnAppendReply, Advance, LeaderAppend, Applied, Restarted, Torn, Acceptable;
    match step
    case Deliver(VoteReply(from, to, t, reply)) => VoteReplyAcks(c, from, to, t, reply);
    case Deliver(Append(to, args)) => AppendAcks(c, to, args);
    case Deliver(AppendReply(from, to, t, lastSent, reply)) => AppendReplyAcks(c, from, to, t, lastSent, reply);
    case Propose(i, command) => LeaderAppendAcks(c, i, command);
    case _ =>
  }

  // In its acknowledged term a node holds what it acknowledged.
  lemma AckHeld(c: Cluster, a: Ack)
    requires Inv(c) && a in c.hist.acks && a.node in c.servers && c.servers[a.node].Term() == a.term
    ensures a.term in c.hist.leaderLog && a.upTo <= |c.hist.leaderLog[a.term]|
    ensures Acked(c.hist, a) <= c.servers[a.node].Log()
  {
    AcksOf(c.hist, c.servers.Keys);
    hide HistoryOk, LayoutOk, LogOk, VoteOk, RoleOk, ProgressOk, StoreOk, MessageOk;
    assert ServerOk(c.hist, c.servers.Keys, a.node, c.servers[a.node]);
    assert AckOk(c.hist, c.servers.Keys, a);
    assert Unbroken(c.hist, Acked(c.hist, a), a.term, a.term + 1);
  }

  // Every acknowledgement was made at some moment, by a node in that term that held it.
  lemma {:induction false} AckMoment(run: seq<Cluster>, k: nat, a: Ack) returns (b: nat)
    requires IsRun(run) && k < |run| && a in run[k].hist.acks
    ensures b <= k && a.node in run[b].servers && run[b].servers[a.node].Term() == a.term
    ensures a.term in run[k].hist.leaderLog && a.upTo <= |run[k].hist.leaderLog[a.term]|
    ensures Acked(run[k].hist, a) <= run[b].servers[a.node].Log()
  {
    hide Inv, Grows, Exec, Enabled, AckedNow;
    RunInv(run, k);
    if k > 0 && a in run[k - 1].hist.acks {
      b := AckMoment(run, k - 1, a);
      RunGrows(run, k - 1, k);
      AckedKept(run[k - 1].hist, run[k].hist, a);
    } else {
      b := k;
      FreshAck(run, k, a);
      AckHeld(run[k], a);
    }
  }

  lemma FreshAck(run: seq<Cluster>, k: nat, a: Ack)
    requires IsRun(run) && k < |run| && a in run[k].hist.acks && (k > 0 ==> a !in run[k - 1].hist.acks)
    ensures a.node in run[k].servers && run[k].servers[a.node].Term() == a.term
  {
    hide Inv, Exec, Enabled;
    if k > 0 {
      RunInv(run, k - 1);
      assert Follows(run[k - 1], run[k - 1 + 1]);
      var step :| Takes(run[k - 1], step, run[k]);
      StepAcks(run[k - 1], step);
    }
  }

  // A leader's match index is a true lower bound on what the peer acknowledged in the
  // leader's term, wherever the peer has gone since: at some moment the peer was in that
  // term and held that much of the leader's log.
  lemma MatchWasStored(run: seq<Cluster>, a: nat, i: NodeId, p: NodeId) returns (b: nat)
    requires IsRun(run) && a < |run| && i in run[a].servers && run[a].servers[i].core.role == Leader
    requires run[a].servers[i].core.MatchOf(p) > 0
    ensures b <= a && p in run[b].servers && run[b].servers[p].Term() == run[a].servers[i].Term()
    ensures
      var s, m := run[a].servers[i], run[a].servers[i].core.MatchOf(p);
      m <= |s.Log()| && s.Log()[..m] <= run[b].servers[p].Log()
  {
    hide IsRun, Inv, HistoryOk, LogOk, LayoutOk, ProgressOk, StoreOk;
    RunInv(run, a);
    ServerFacts(run[a], i);
    var s := run[a].servers[i];
    b := AckMoment(run, a, Ack(p, s.Term(), s.core.MatchOf(p)));
  }

  // ---- late messages ----

  // Once a node has accepted a message of a term, every message of that term that reaches no
  // further leaves its log alone, in whatever order and however late it arrives.
  lemma LateMessageIgnored(run: seq<Cluster>, a: nat, b: nat, i: NodeId, sent: AppendEntriesArgs,
                           args: AppendEntriesArgs)
    requires IsRun(run) && a < b < |run| && i in run[b].servers
    requires Enabled(run[a], Deliver(Append(i, sent))) && run[a + 1] == Exec(run[a], Deliver(Append(i, sent)))
    requires run[a].servers[i].core.HandleAppendEntries(sent).1.success
    requires run[b].servers[i].Term() == sent.term == args.term && args.LastSent() <= sent.LastSent()
    requires Append(i, args) in run[b].net
    ensures Enabled(run[b], Deliver(Append(i, args)))
    ensures Exec(run[b], Deliver(Append(i, args))).servers[i].Log() == run[b].servers[i].Log()
  {
    hide IsRun, Inv, Grows, Enabled, Exec;
    AcceptedAck(run[a], i, sent);
    RunInv(run, b);
    RunGrows(run, a + 1, b);
    AcksGrow(run[a + 1].hist, run[b].hist);
    LateMessage(run[b], i, args, sent.LastSent());
    ExecAppend(run[b], i, args);
  }

  lemma ExecAppend(c: Cluster, i: NodeId, args: AppendEntriesArgs)
    requires i in c.servers && Append(i, args) in c.net && Acceptable(c.servers[i], args)
    ensures Enabled(c, Deliver(Append(i, args))) && Exec(c, Deliver(Append(i, args))) == OnAppend(c, i, args)
  {
  }

  lemma AcksGrow(h: History, h': History)
    requires Grows(h, h')
    ensures h.acks <= h'.acks
  {
  }

  lemma AcceptedAck(c: Cluster, i: NodeId, args: AppendEntriesArgs)
    requires Enabled(c, Deliver(Append(i, args))) && c.servers[i].core.HandleAppendEntries(args).1.success
    ensures Ack(i, args.term, args.LastSent()) in Exec(c, Deliver(Append(i, args))).hist.acks
  {
    hide Node.HandleAppendEntries;
  }

  lemma LateMessage(c: Cluster, i: NodeId, args: AppendEntriesArgs, upTo: LogIndex)
    requires Inv(c) && i in c.servers && Append(i, args) in c.net && c.servers[i].Term() == args.term
    requires Ack(i, args.term, upTo) in c.hist.acks && args.LastSent() <= upTo
    ensures Acceptable(c.servers[i], args) && OnAppend(c, i, args).servers[i].Log() == c.servers[i].Log()
  {
    hide Inv, HistoryOk, Node.HandleAppendEntries;
    DeliverAllowed(c, i, args);
    AppendFacts(c, i, args);
    AckHeld(c, Ack(i, args.term, upTo));
    var l := c.hist.leaderLog[args.term];
    assert l[..args.LastSent()] == l[..upTo][..args.LastSent()];
  }

  // ---- batches ----

  // The steps behind a run.
  ghost predicate Trace(run: seq<Cluster>, steps: seq<Step>) {
    && |run| == |steps| + 1 && Init(run[0])
    && forall k :: 0 <= k < |steps| ==> Takes(run[k], steps[k], run[k + 1])
  }

  lemma TraceIsRun(run: seq<Cluster>, steps: seq<Step>)
    requires Trace(run, steps)
    ensures IsRun(run)
  {
    hide Enabled, Exec;
    forall k | 0 <= k < |steps| ensures Follows(run[k], run[k + 1]) {
      assert Takes(run[k], steps[k], run[k + 1]);
    }
  }

  // What `i` was handed to apply between moments `a` and `b`, batch after batch.
  ghost function Batches(run: seq<Cluster>, steps: seq<Step>, i: NodeId, a: nat, b: nat): Entries
    requires Trace(run, steps) && a <= b <= |steps|
    decreases b
  {
    if a == b then []
    else
      assert Takes(run[b - 1], steps[b - 1], run[b - 1 + 1]);
      Batches(run, steps, i, a, b - 1)
      + if steps[b - 1] == ApplyCommitted(i) then run[b - 1].servers[i].core.Committed() else []
  }

  // `es` is the stretch of the log between the two applied indices.
  ghost predicate GivenOut(c: Cluster, c': Cluster, i: NodeId, es: Entries) {
    && i in c.servers && i in c'.servers
    && var from, to, log := c.servers[i].core.lastApplied, c'.servers[i].core.lastApplied, c'.servers[i].Log();
       from <= to <= |log| && es == log[from..to]
  }

  // Between restarts the batches are exactly the stretch of the log from the old applied
  // index to the new one: nothing is skipped and nothing is handed out twice.
  lemma {:induction false} BatchesAreTheLog(run: seq<Cluster>, steps: seq<Step>, i: NodeId, a: nat, b: nat)
    requires Trace(run, steps) && a <= b <= |steps| && i in run[a].servers
    requires forall k :: a <= k < b ==> !Reboots(steps[k], i)
    ensures GivenOut(run[a], run[b], i, Batches(run, steps, i, a, b))
    decreases b
  {
    hide Inv, Enabled, Exec, Takes, Init, IsRun, Node.Committed;
    TraceIsRun(run, steps);
    if a == b {
      StoresAgree(run, a, a, i, i);
    } else {
      BatchesAreTheLog(run, steps, i, a, b - 1);
      RunInv(run, b - 1);
      TraceStep(run, steps, b - 1);
      hide Trace, GivenOut;
      OneMoreBatch(run[a], run[b - 1], steps[b - 1], run[b], i, Batches(run, steps, i, a, b - 1));
    }
  }

  lemma OneMoreBatch(c0: Cluster, c: Cluster, step: Step, c': Cluster, i: NodeId, es: Entries)
    requires Inv(c) && Takes(c, step, c') && GivenOut(c0, c, i, es) && !Reboots(step, i)
    requires step == ApplyCommitted(i) ==> c.servers[i].core.WellFormed()
    ensures GivenOut(c0, c', i, es + if step == ApplyCommitted(i) then c.servers[i].core.Committed() else [])
  {
    hide Inv, Enabled, Exec, Node.Committed;
    StepApplies(c, step, i);
    Glued(c.servers[i].Log(), c'.servers[i].Log(), c0.servers[i].core.lastApplied, c.servers[i].core.lastApplied,
          c'.servers[i].core.lastApplied);
  }

  lemma TraceStep(run: seq<Cluster>, steps: seq<Step>, k: nat)
    requires Trace(run, steps) && k < |steps|
    ensures Takes(run[k], steps[k], run[k + 1])
    ensures forall i :: steps[k] == ApplyCommitted(i) ==> i in run[k].servers && run[k].servers[i].core.WellFormed()
  {
    hide Exec;
  }

  lemma Glued(log: Entries, log': Entries, from: nat, k: nat, to: nat)
    requires from <= k <= |log| && k <= to <= |log'| && log'[..k] == log[..k]
    ensures log[from..k] + log'[k..to] == log'[from..to]
  {
    assert log[from..k] == log[..k][from..] == log'[..k][from..] == log'[from..k];
  }

  // One step: the applied index moves by the batch, and what was applied stays.
  lemma StepApplies(c: Cluster, step: Step, i: NodeId)
    requires Inv(c) && Enabled(c, step) && i in c.servers && !Reboots(step, i)
    ensures i in Exec(c, step).servers
    ensures
      var s, s' := c.servers[i], Exec(c, step).servers[i];
      var k, to := s.core.lastApplied, s'.core.lastApplied;
      && k <= |s.Log()| && k <= to <= |s'.Log()| && s'.Log()[..k] == s.Log()[..k]
      && s'.Log()[k..to] == if step == ApplyCommitted(i) then s.core.Committed() else []
  {
    hide Inv, Enabled, Exec, Node.Committed;
    if step == ApplyCommitted(i) {
      ExecApply(c, i);
      ApplyStep(c, i);
    } else {
      AppliedUnmoved(c, step, i);
      AppliedKept(c, step, i);
    }
  }

  lemma ExecApply(c: Cluster, i: NodeId)
    requires Enabled(c, ApplyCommitted(i))
    ensures i in c.servers && c.servers[i].core.WellFormed()
    ensures Exec(c, ApplyCommitted(i)) == c.Put(i, Applied(c.servers[i]))
  {
  }

  lemma ApplyStep(c: Cluster, i: NodeId)
    requires Inv(c) && i in c.servers && c.servers[i].core.WellFormed()
    ensures
      var s, s' := c.servers[i], Applied(c.servers[i]);
      && s.core.lastApplied <= s'.core.lastApplied <= |s.Log()| && s'.Log() == s.Log()
      && s.Log()[s.core.lastApplied..s'.core.lastApplied] == s.core.Committed()
  {
    hide HistoryOk, LogOk, VoteOk, RoleOk, KeepsAcks, MessageOk, Applied, Node.Committed, Fold;
    var s := c.servers[i];
    AcksOf(c.hist, c.servers.Keys);
    assert ServerOk(c.hist, c.servers.Keys, i, s);
    AppliedServer(c.hist, c.servers.Keys, i, s);
    Views(c.servers.Keys, i, s);
    BatchIsSlice(s.core, s.Log());
  }

  // ---- no other step moves the applied index ----

  ghost predicate SameApplied(c: Cluster, c': Cluster, j: NodeId) {
    j in c.servers && j in c'.servers && c'.servers[j].core.lastApplied == c.servers[j].core.lastApplied
  }

  lemma AdvanceUnmoved(c: Cluster, i: NodeId, j: NodeId)
    requires i in c.servers && j in c.servers
    ensures SameApplied(c, Advance(c, i), j)
  {
    hide QuorumIndex;
  }

  lemma VoteReplyUnmoved(c: Cluster, from: NodeId, i: NodeId, t: Term, reply: RequestVoteReply, j: NodeId)
    requires i in c.servers && j in c.servers
    ensures SameApplied(c, OnVoteReply(c, from, i, t, reply), j)
  {
    var s := c.servers[i];
    if reply.term <= s.Term() && s.core.role == Candidate && s.Term() == t && reply.voteGranted {
      var won := LeaderAppend(Win(c.Put(i, s.(granted := s.granted + {from})), i), i, Noop);
      AdvanceUnmoved(won, i, j);
      assert SameApplied(c, won, j);
    }
    hide Advance, LeaderAppend, Win;
  }

  lemma AppendUnmoved(c: Cluster, i: NodeId, args: AppendEntriesArgs, j: NodeId)
    requires i in c.servers && j in c.servers && Acceptable(c.servers[i], args)
    ensures SameApplied(c, OnAppend(c, i, args), j)
  {
    hide Splice;
  }

  lemma AppendReplyUnmoved(c: Cluster, from: NodeId, i: NodeId, t: Term, lastSent: LogIndex, reply: AppendEntriesReply,
                           j: NodeId)
    requires i in c.servers && j in c.servers
    ensures SameApplied(c, OnAppendReply(c, from, i, t, lastSent, reply), j)
  {
    hide Advance;
    AdvanceUnmoved(c.Put(i, c.servers[i].(core := c.servers[i].core.RecordReply(from, lastSent, reply))), i, j);
  }

  lemma AppliedUnmoved(c: Cluster, step: Step, j: NodeId)
    requires Enabled(c, step) && j in c.servers && !Reboots(step, j) && step != ApplyCommitted(j)
    ensures SameApplied(c, Exec(c, step), j)
  {
    hide OnVoteReply, OnAppend, OnAppendReply, Advance, Applied, Restarted, Torn, Acceptable;
    match step
    case Deliver(VoteReply(from, to, t, reply)) => VoteReplyUnmoved(c, from, to, t, reply, j);
    case Deliver(Append(to, args)) => AppendUnmoved(c, to, args, j);
    case Deliver(AppendReply(from, to, t, lastSent, reply)) => AppendReplyUnmoved(c, from, to, t, lastSent, reply, j);
    case Propose(i, command) => AdvanceUnmoved(LeaderAppend(c, i, command), i, j);
    case _ =>
  }

  lemma AppliedKept(c: Cluster, step: Step, i: NodeId)
    requires Inv(c) && Enabled(c, step) && i in c.servers && i in Exec(c, step).servers
    ensures
      var s, s' := c.servers[i], Exec(c, step).servers[i];
      s.core.lastApplied <= |s.Log()| && s.Log()[..s.core.lastApplied] <= s'.Log()
  {
    hide Inv, HistoryOk, LogOk, RoleOk, StoreOk, LayoutOk, Covers, Exec, Enabled;
    var s := c.servers[i];
    ServerFacts(c, i);
    var p := s.Log()[..s.core.commitIndex];
    Unchanged(c.hist);
    CommittedKept(c.hist, c.hist, s.Log(), p, |p|, s.Term(), s.Term());
    StepKeepsCommitted(c, step, i, p);
    assert s.Log()[..s.core.lastApplied] == p[..s.core.lastApplied];
  }
}
