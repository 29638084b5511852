/**
  Crashing in the middle of receiving AppendEntries keeps the invariant: the log is left
  untouched or as a prefix of the leader's that still holds all the two had in common.
*/
module CrashSteps {
  import opened Types
  import opened RaftNode
  import opened Splicing
  import opened StateMachine
  import opened Cluster
  import opened Invariant
  import opened Completeness
  import opened Growth
  import opened ElectionSteps
  import opened FollowerSteps
  import opened LocalSteps

  // `log'` is `log`, or a prefix of `l` that keeps whatever both logs start with.
  ghost predicate Joined(log: Entries, l: Entries, log': Entries) {
    && (log' == log || log' <= l)
    && forall x :: 0 <= x <= |log| && x <= |l| && log[..x] == l[..x] ==> log[..x] <= log'
  }

  lemma JoinedKeeps(log: Entries, l: Entries, log': Entries, p: Entries)
    requires Joined(log, l, log') && p <= log && p <= l
    ensures p <= log'
  {
    assert log[..|p|] == p == l[..|p|];
  }

  // The torn splice of a slice of `l` into a log that agrees with `l` up to the slice.
  lemma TornJoins(dropped: Entries, entries: Entries, l: Entries, prev: nat, e: nat, k: nat)
    requires prev <= e <= |l| && prev <= |dropped + entries| && k <= e - prev + 1
    requires Contiguous(l, 1) && Contiguous(entries, |dropped| + 1)
    requires dropped <= l && (dropped + entries)[..prev] <= l
    requires Matching(dropped + entries, l)
    ensures Contiguous(l[prev..e], prev + 1)
    ensures Joined(dropped + entries, l, dropped + TornSplice(entries, |dropped|, prev, l[prev..e], k))
  {
    hide Matching, Covered, Contiguous, TornSplice, Joined;
    var log, es := dropped + entries, l[prev..e];
    var c := Covered(entries, |dropped|, es);
    SliceContiguous(l, prev, e);
    CoveredAgrees(dropped, entries, l, prev, e, c);
    TornForm(entries, |dropped|, prev, es, k);
    if c < |es| && k > c {
      Uncovered(dropped, entries, l, prev, e, c);
      Rejoined(dropped, entries, l, prev, prev + k - 1, c);
      SliceTwice(l, prev, e, c, k - 1);
      PrefixJoins(log, l, prev + c, prev + k - 1);
    } else {
      JoinedSelf(log, l);
    }
  }

  lemma JoinedSelf(log: Entries, l: Entries)
    ensures Joined(log, l, log)
  {
  }

  lemma SliceTwice(l: Entries, prev: nat, e: nat, a: nat, b: nat)
    requires prev <= e <= |l| && a <= b <= e - prev
    ensures l[prev..e][a..b] == l[prev..prev + b][a..]
  {
    var slice := l[prev..e];
    assert slice[..b] == l[prev..prev + b] && slice[a..b] == slice[..b][a..];
  }

  // Two logs that part ways at `x`: a longer prefix of one keeps all they share.
  lemma PrefixJoins(log: Entries, l: Entries, x: nat, e: nat)
    requires x <= e <= |l| && x <= |log| && (x < |log| && x < |l| ==> log[x].term != l[x].term)
    ensures Joined(log, l, l[..e])
  {
    forall y | 0 <= y <= |log| && y <= |l| && log[..y] == l[..y] ensures log[..y] <= l[..e] {
      SharedUpTo(log, l, x, y);
    }
  }

  lemma SharedUpTo(log: Entries, l: Entries, x: nat, y: nat)
    requires y <= |log| && y <= |l| && log[..y] == l[..y] && (x < |log| && x < |l| ==> log[x].term != l[x].term)
    ensures y <= x
  {
  }

  // ---- the server ----

  // Replacing the log by a joined one keeps everything the invariant says of a follower.
  lemma JoinedServer(h: History, members: set<NodeId>, i: NodeId, s: Server, s': Server)
    requires AcksOk(h, members) && ElectionsOk(h, members) && CampaignsOk(h) && ServerOk(h, members, i, s)
    requires s.core.role == Follower && s.Term() in h.elections
    requires s' == s.(core := s.core.(entries := s'.core.entries)) && LayoutOk(members, i, s')
    requires Joined(s.Log(), h.leaderLog[s.Term()], s'.Log())
    requires s.Log()[..s.core.commitIndex] <= h.leaderLog[s.Term()]
    ensures ServerOk(h, members, i, s')
  {
    assert s.Term() in h.leaderLog;
    hide Rooted, KeepsAcks, Covers, Joined, AcksOk, ElectionsOk, CampaignsOk, Fold;
    JoinedKeeps(s.Log(), h.leaderLog[s.Term()], s'.Log(), s.Log()[..s.core.commitIndex]);
    JoinedLog(h, members, s, s');
    JoinedAcks(h, members, i, s, s');
    JoinedProgress(h, s, s');
    hide LogOk, ProgressOk, StoreOk;
  }

  lemma JoinedProgress(h: History, s: Server, s': Server)
    requires ProgressOk(h, s) && StoreOk(s) && s' == s.(core := s.core.(entries := s'.core.entries))
    requires s.Log()[..s.core.commitIndex] <= s'.Log()
    ensures ProgressOk(h, s') && StoreOk(s')
  {
    hide Covers, Fold;
    var log, log' := s.Log(), s'.Log();
    Unchanged(h);
    CommittedKept(h, h, log, log', s.core.commitIndex, s.Term(), s.Term());
    assert log'[..s.core.lastApplied] == log'[..s.core.commitIndex][..s.core.lastApplied]
        == log[..s.core.commitIndex][..s.core.lastApplied] == log[..s.core.lastApplied];
  }

  lemma JoinedLog(h: History, members: set<NodeId>, s: Server, s': Server)
    requires ElectionsOk(h, members) && CampaignsOk(h) && LogOk(h, s) && s.Term() in h.elections
    requires s'.Term() == s.Term() && Joined(s.Log(), h.leaderLog[s.Term()], s'.Log())
    ensures LogOk(h, s')
  {
    var l := h.leaderLog[s.Term()];
    assert LeaderLogOk(h, s.Term());
    LeaderLogTerms(h, members, s.Term());
    if s'.Log() != s.Log() {
      PrefixRooted(h, l, |s'.Log()|);
      assert s'.Log() == l[..|s'.Log()|];
    }
  }

  lemma JoinedAcks(h: History, members: set<NodeId>, i: NodeId, s: Server, s': Server)
    requires AcksOk(h, members) && ElectionsOk(h, members) && KeepsAcks(h, members, i, s) && s.Term() in h.elections
    requires s'.Term() == s.Term() && Joined(s.Log(), h.leaderLog[s.Term()], s'.Log())
    ensures KeepsAcks(h, members, i, s')
  {
    hide Joined, Rooted, ElectionOk;
    forall a | a in h.acks && a.node == i
      ensures a.term <= s'.Term()
      ensures Unbroken(h, Acked(h, a), a.term, s'.Term() + 1) ==> Acked(h, a) <= s'.Log()
    {
      if Unbroken(h, Acked(h, a), a.term, s'.Term() + 1) {
        assert LeaderLogOk(h, s.Term()) && Acked(h, a) <= h.leaderLog[s.Term()];
        JoinedKeeps(s.Log(), h.leaderLog[s.Term()], s'.Log(), Acked(h, a));
      }
    }
  }

  // What a torn message leaves in the log, and of the terms.
  ghost predicate TornResult(h: History, s: Server, args: AppendEntriesArgs, s': Server)
    requires args.term in h.leaderLog
  {
    && s'.Term() == Max(s.Term(), args.term)
    && (s'.Log() == s.Log()
        || (s.Term() <= args.term && Joined(s.Log(), h.leaderLog[args.term], s'.Log())))
  }

  lemma TornServer(h: History, members: set<NodeId>, i: NodeId, s: Server, args: AppendEntriesArgs, k: nat)
    requires HistoryOk(h, members) && ServerOk(h, members, i, s) && Acceptable(s, args)
    requires AppendOk(h, i, args) && k <= |args.entries| + 1
    ensures ServerOk(h, members, i, Torn(s, args, k)) && TornResult(h, s, args, Torn(s, args, k))
  {
    hide HistoryOk, CampaignsOk, ElectionsOk, AcksOk, LogOk, RoleOk, KeepsAcks, ProgressOk, StoreOk, VoteOk, Joined;
    if args.term >= s.Term() {
      var known := s.(core := s.core.Recognise(args));
      AcksOf(h, members);
      assert known == s.(core := s.core.BecomeFollower(args.term, Some(args.leaderId)));
      SteppedDown(h, members, i, s, args.term, Some(args.leaderId));
      if known.core.Accepts(args) { TornStored(h, members, i, known, args, k); }
    }
  }

  lemma TornStored(h: History, members: set<NodeId>, i: NodeId, s: Server, args: AppendEntriesArgs, k: nat)
    requires HistoryOk(h, members) && ServerOk(h, members, i, s) && Acceptable(s, args)
    requires AppendOk(h, i, args) && args.term == s.Term() && s.core.role == Follower
    requires s.core.Accepts(args) && k <= |args.entries| + 1
    ensures
      var entries := TornSplice(s.core.entries, s.core.snapshot.lastIncludedIndex, args.Start(), args.entries, k);
      var s' := s.(core := s.core.(entries := entries));
      ServerOk(h, members, i, s') && Joined(s.Log(), h.leaderLog[args.term], s'.Log())
  {
    hide HistoryOk, CampaignsOk, ElectionsOk, AcksOk, LogOk, RoleOk, KeepsAcks, StoreOk, VoteOk, Covers, TornSplice;
    var l := h.leaderLog[args.term];
    AgreesUpToPrev(h, members, i, s, args);
    AcksOf(h, members);
    StartsAtCheck(args);
    assert s.dropped == s.Log()[..s.core.commitIndex][..|s.dropped|];
    hide Matching, Contiguous, Joined;
    TornJoins(s.dropped, s.core.entries, l, args.prevLogIndex, args.LastSent(), k);
    var entries := TornSplice(s.core.entries, |s.dropped|, args.prevLogIndex, args.entries, k);
    JoinedServer(h, members, i, s, s.(core := s.core.(entries := entries)));
  }

  lemma CrashKeepsInv(c: Cluster, i: NodeId, args: AppendEntriesArgs, k: nat)
    requires Inv(c) && i in c.servers && Append(i, args) in c.net
    requires Acceptable(c.servers[i], args) && k <= |args.entries| + 1
    ensures Inv(c.Put(i, Restarted(Torn(c.servers[i], args, k))))
  {
    hide HistoryOk, ServerOk, MessageOk, GrowsBy, Restarted, Torn, Acceptable;
    assert MessageOk(c.hist, c.servers.Keys, Append(i, args));
    AppendSound(c, i, args);
    TornServer(c.hist, c.servers.Keys, i, c.servers[i], args, k);
    AcksOf(c.hist, c.servers.Keys);
    RestartedServer(c.hist, c.servers.Keys, i, Torn(c.servers[i], args, k));
    NothingNew(c.hist, i);
    StepKeepsInv(c, c.Put(i, Restarted(Torn(c.servers[i], args, k))), i);
  }

  lemma AppendSound(c: Cluster, i: NodeId, args: AppendEntriesArgs)
    requires Inv(c) && Append(i, args) in c.net
    ensures AppendOk(c.hist, i, args)
  {
    assert MessageOk(c.hist, c.servers.Keys, Append(i, args));
  }

  lemma NothingNew(h: History, i: NodeId)
    ensures GrowsBy(h, h, i)
  {
  }
}
