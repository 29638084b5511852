/**
  Receiving AppendEntries keeps the invariant. The splice turns out to be a choice
  between two logs: the follower's own, if it already holds what was sent, or else
  exactly the leader's log up to the end of the message.
*/
module FollowerSteps {
  import opened Types
  import opened RaftNode
  import opened Splicing
  import opened Cluster
  import opened Invariant
  import opened Completeness
  import opened Growth
  import opened Recording
  import opened ElectionSteps

  function Merge(log: Entries, sent: Entries): Entries {
    if sent <= log then log else sent
  }

  // Whatever both logs start with survives the merge.
  lemma MergeKeeps(log: Entries, l: Entries, e: nat, p: Entries)
    requires e <= |l| && p <= log && p <= l
    ensures p <= Merge(log, l[..e])
  {
    if |p| > e { assert l[..e] == p[..e] == log[..e]; }
  }

  lemma Differ(log: Entries, l: Entries, e: nat, x: nat)
    requires x < e <= |l| && (x < |log| ==> log[x].term != l[x].term)
    ensures !(l[..e] <= log)
  {
    assert l[..e][x] == l[x];
  }

  lemma ShorterPrefix(log: Entries, a: nat, b: nat, l: Entries)
    requires a <= b <= |log| && log[..b] <= l
    ensures log[..a] <= l
  {
    assert log[..a] == log[..b][..a];
  }

  // Two logs that agree on a term at some position agree up to there.
  ghost predicate Matching(a: Entries, b: Entries) {
    forall k :: 0 <= k < |a| && k < |b| && a[k].term == b[k].term ==> a[..k + 1] == b[..k + 1]
  }

  lemma SliceContiguous(l: Entries, prev: nat, e: nat)
    requires Contiguous(l, 1) && prev <= e <= |l|
    ensures Contiguous(l[prev..e], prev + 1)
  {
  }

  // The splice of a slice of `l` into a log that agrees with `l` up to the slice.
  lemma SpliceIsMerge(dropped: Entries, entries: Entries, l: Entries, prev: nat, e: nat)
    requires prev <= e <= |l| && prev <= |dropped + entries|
    requires Contiguous(l, 1) && Contiguous(entries, |dropped| + 1)
    requires dropped <= l && (dropped + entries)[..prev] <= l
    requires Matching(dropped + entries, l)
    ensures Contiguous(l[prev..e], prev + 1)
    ensures dropped + Splice(entries, |dropped|, prev, l[prev..e]) == Merge(dropped + entries, l[..e])
  {
    hide Matching, Splice, Covered, Contiguous;
    var log, es := dropped + entries, l[prev..e];
    var k := Covered(entries, |dropped|, es);
    SliceContiguous(l, prev, e);
    CoveredAgrees(dropped, entries, l, prev, e, k);
    SpliceReaches(entries, |dropped|, prev, es);
    if k < |es| {
      Uncovered(dropped, entries, l, prev, e, k);
      Differ(log, l, e, prev + k);
      Rejoined(dropped, entries, l, prev, e, k);
      assert Splice(entries, |dropped|, prev, es) == entries[..prev + k - |dropped|] + es[k..];
    } else {
      assert prev + k == e && log[..e] == l[..e];
    }
  }

  // The first uncovered entry lies above the snapshot and is missing or of another term.
  lemma Uncovered(dropped: Entries, entries: Entries, l: Entries, prev: nat, e: nat, k: nat)
    requires prev <= e <= |l| && Contiguous(l, 1)
    requires k == Covered(entries, |dropped|, l[prev..e]) && k < e - prev
    ensures |dropped| <= prev + k
    ensures prev + k < |dropped + entries| ==> (dropped + entries)[prev + k].term != l[prev + k].term
  {
    assert l[prev..e][k] == l[prev + k];
  }

  lemma Rejoined(dropped: Entries, entries: Entries, l: Entries, prev: nat, e: nat, k: nat)
    requires prev + k <= e <= |l| && |dropped| <= prev + k <= |dropped + entries|
    requires (dropped + entries)[..prev + k] == l[..prev + k]
    ensures dropped + (entries[..prev + k - |dropped|] + l[prev..e][k..]) == l[..e]
  {
    assert dropped + entries[..prev + k - |dropped|] == (dropped + entries)[..prev + k];
    assert l[prev..e][k..] == l[prev + k..e];
  }

  // The covered part of the message is already in the log.
  lemma {:induction false} CoveredAgrees(dropped: Entries, entries: Entries, l: Entries, prev: nat, e: nat, k: nat)
    requires prev <= e <= |l| && prev <= |dropped + entries| && Contiguous(l, 1) && dropped <= l
    requires (dropped + entries)[..prev] <= l && Matching(dropped + entries, l)
    requires k <= Covered(entries, |dropped|, l[prev..e])
    ensures prev + k <= |dropped + entries| && (dropped + entries)[..prev + k] == l[..prev + k]
  {
    if k > 0 {
      CoveredAgrees(dropped, entries, l, prev, e, k - 1);
      var x, log := prev + k - 1, dropped + entries;
      assert l[prev..e][k - 1] == l[x] && Present(entries, |dropped|, l[x]) && l[x].index == x + 1;
      if x >= |dropped| {
        assert x < |log| && log[x] == entries[x - |dropped|];
        assert log[x].term == l[x].term;
      } else {
        assert log[..x + 1] == log[..x] + [log[x]] && log[x] == dropped[x] == l[x];
      }
    }
  }

  lemma RootedMatch(h: History, a: Entries, b: Entries)
    requires Rooted(h, a) && Rooted(h, b)
    ensures Matching(a, b) && Contiguous(b, 1)
  {
    forall k | 0 <= k < |a| && k < |b| && a[k].term == b[k].term ensures a[..k + 1] == b[..k + 1] {
      LogMatching(h, a, b, k);
    }
  }

  // A follower that passes the log-matching check agrees with the leader up to there,
  // whether the check compared terms or the index lay below the snapshot.
  lemma AgreesUpToPrev(h: History, members: set<NodeId>, i: NodeId, s: Server, args: AppendEntriesArgs)
    requires HistoryOk(h, members) && LayoutOk(members, i, s) && LogOk(h, s) && ProgressOk(h, s)
    requires AppendOk(h, i, args) && args.term == s.Term()
    requires args.prevLogIndex <= s.core.LastLogIndex() && s.core.PrevMatches(args)
    ensures var l := h.leaderLog[args.term];
      && s.Log()[..s.core.commitIndex] <= l
      && Contiguous(l, 1) && Matching(s.Log(), l)
      && args.prevLogIndex <= |s.Log()| && s.Log()[..args.prevLogIndex] <= l
  {
    var log, l := s.Log(), h.leaderLog[args.term];
    LeaderHoldsCommitted(h, members, log, s.core.commitIndex, args.term);
    hide Covers, AcksOk, VotesKeepAcks, CommitsOk, VotesOk, CampaignsOk;
    assert LeaderLogOk(h, args.term);
    RootedMatch(h, log, l);
    PrevAgrees(members, i, s, args, l);
  }

  lemma PrevAgrees(members: set<NodeId>, i: NodeId, s: Server, args: AppendEntriesArgs, l: Entries)
    requires LayoutOk(members, i, s) && |s.dropped| <= s.core.commitIndex <= |s.Log()|
    requires s.Log()[..s.core.commitIndex] <= l && Matching(s.Log(), l)
    requires args.prevLogIndex <= |l| && args.prevLogTerm == TermBefore(l, args.prevLogIndex)
    requires args.prevLogIndex <= s.core.LastLogIndex() && s.core.PrevMatches(args)
    ensures args.prevLogIndex <= |s.Log()| && s.Log()[..args.prevLogIndex] <= l
  {
    var log, prev := s.Log(), args.prevLogIndex;
    Views(members, i, s);
    if prev < |s.dropped| {
      ShorterPrefix(log, prev, s.core.commitIndex, l);
    } else if prev > 0 {
      assert log[prev - 1].term == l[prev - 1].term;
    }
  }

  lemma OnAppendKeepsInv(c: Cluster, i: NodeId, args: AppendEntriesArgs)
    requires Inv(c) && Enabled(c, Deliver(Append(i, args)))
    ensures Inv(OnAppend(c, i, args)) && OnAppend(c, i, args).servers.Keys == c.servers.Keys
    ensures Grows(c.hist, OnAppend(c, i, args).hist)
  {
    hide HistoryOk, ServerOk, MessageOk, GrowsBy;
    AppendHandled(c.hist, c.servers.Keys, i, c.servers[i], args);
    StepKeepsInv(c, OnAppend(c, i, args), i);
  }

  // The history after the message, as the step records it.
  ghost function AppendRecorded(h: History, i: NodeId, s: Server, args: AppendEntriesArgs): History
    requires Acceptable(s, args)
  {
    if s.core.HandleAppendEntries(args).1.success
    then h.(acks := h.acks + AcksUpTo(i, args.term, args.LastSent()))
    else h
  }

  lemma AppendHandled(h: History, members: set<NodeId>, i: NodeId, s: Server, args: AppendEntriesArgs)
    requires HistoryOk(h, members) && i in members && ServerOk(h, members, i, s) && Acceptable(s, args)
    requires MessageOk(h, members, Append(i, args))
    ensures
      var (n, reply) := s.core.HandleAppendEntries(args);
      var h' := AppendRecorded(h, i, s, args);
      && HistoryOk(h', members) && GrowsBy(h, h', i)
      && ServerOk(h', members, i, s.(core := n))
      && MessageOk(h', members, AppendReply(i, args.leaderId, args.term, args.LastSent(), reply))
  {
    hide HistoryOk, CampaignsOk, ElectionsOk, AcksOk, LogOk, RoleOk, KeepsAcks, ProgressOk, StoreOk, VoteOk, Splice,
      Contiguous, CommittedUpTo;
    if args.term >= s.Term() {
      var known := s.(core := s.core.Recognise(args));
      AcksOf(h, members);
      assert known == s.(core := s.core.BecomeFollower(args.term, Some(args.leaderId)));
      SteppedDown(h, members, i, s, args.term, Some(args.leaderId));
      if s.core.HandleAppendEntries(args).1.success {
        AppendStored(h, members, i, known, args);
      }
    }
  }

  lemma AppendStored(h: History, members: set<NodeId>, i: NodeId, s: Server, args: AppendEntriesArgs)
    requires HistoryOk(h, members) && i in members && ServerOk(h, members, i, s) && Acceptable(s, args)
    requires AppendOk(h, i, args) && args.term == s.Term() && s.core.role == Follower
    requires args.prevLogIndex <= s.core.LastLogIndex() && s.core.PrevMatches(args)
    ensures
      var h' := h.(acks := h.acks + AcksUpTo(i, args.term, args.LastSent()));
      && HistoryOk(h', members) && GrowsBy(h, h', i)
      && ServerOk(h', members, i, s.(core := s.core.Store(args)))
  {
    hide HistoryOk, CampaignsOk, ElectionsOk, AcksOk, LogOk, RoleOk, KeepsAcks, ProgressOk, StoreOk;
    AgreesUpToPrev(h, members, i, s, args);
    var h' := AddAcks(h, members, i, args.term, args.LastSent());
    AcksOf(h, members);
    AcksOf(h', members);
    StoredLog(h, members, i, s, args);
    StoredServer(h, h', members, i, s, s.(core := s.core.Store(args)), args);
  }

  // An accepted message merges the leader's log up to the end of the message into the
  // follower's, agrees with all the follower had committed, and moves the commit index
  // to exactly what the leader said; a refused one changes neither.
  ghost predicate AppendResult(h: History, s: Server, args: AppendEntriesArgs, n: Node, reply: AppendEntriesReply)
    requires args.term in h.leaderLog && args.LastSent() <= |h.leaderLog[args.term]| && s.core.commitIndex <= |s.Log()|
  {
    var s' := s.(core := n);
    if reply.success then
      && s'.Log() == Merge(s.Log(), h.leaderLog[args.term][..args.LastSent()])
      && s.Log()[..s.core.commitIndex] <= h.leaderLog[args.term]
      && n.commitIndex == Max(s.core.commitIndex, args.leaderCommit)
      && s.Term() <= args.term == s'.Term()
    else s'.Log() == s.Log() && n.commitIndex == s.core.commitIndex && s'.Term() == Max(s.Term(), args.term)
  }

  lemma AppendOutcome(h: History, members: set<NodeId>, i: NodeId, s: Server, args: AppendEntriesArgs)
    requires HistoryOk(h, members) && i in members && ServerOk(h, members, i, s) && Acceptable(s, args)
    requires AppendOk(h, i, args)
    ensures AppendResult(h, s, args, s.core.HandleAppendEntries(args).0, s.core.HandleAppendEntries(args).1)
  {
    hide HistoryOk, CampaignsOk, ElectionsOk, AcksOk, RoleOk, KeepsAcks, StoreOk, VoteOk, Rooted, Covers;
    if s.core.HandleAppendEntries(args).1.success {
      var known := s.(core := s.core.Recognise(args));
      AcksOf(h, members);
      SteppedDown(h, members, i, s, args.term, Some(args.leaderId));
      assert known == s.(core := s.core.BecomeFollower(args.term, Some(args.leaderId)));
      assert known.Log() == s.Log();
      AgreesUpToPrev(h, members, i, known, args);
      StoredLog(h, members, i, known, args);
    }
  }

  lemma StoredLog(h: History, members: set<NodeId>, i: NodeId, s: Server, args: AppendEntriesArgs)
    requires LayoutOk(members, i, s) && ProgressOk(h, s) && AppendOk(h, i, args) && Acceptable(s, args)
    requires args.prevLogIndex <= s.core.LastLogIndex()
    requires var l := h.leaderLog[args.term];
      && s.Log()[..s.core.commitIndex] <= l
      && Contiguous(l, 1) && Matching(s.Log(), l)
      && args.prevLogIndex <= |s.Log()| && s.Log()[..args.prevLogIndex] <= l
    ensures var s' := s.(core := s.core.Store(args));
      && LayoutOk(members, i, s')
      && s'.Log() == Merge(s.Log(), h.leaderLog[args.term][..args.LastSent()])
      && s'.core == s.core.(entries := s'.core.entries, commitIndex := Max(s.core.commitIndex, args.leaderCommit))
  {
    var l := h.leaderLog[args.term];
    assert s.dropped == s.Log()[..s.core.commitIndex][..|s.dropped|];
    hide Covers, Splice, CommittedUpTo, Matching, Contiguous;
    SpliceIsMerge(s.dropped, s.core.entries, l, args.prevLogIndex, args.LastSent());
    Stored(s, l, args);
  }

  // The commit index follows the leader's, once the log reaches the end of the message.
  lemma Stored(s: Server, l: Entries, args: AppendEntriesArgs)
    requires Acceptable(s, args) && args.prevLogIndex <= s.core.LastLogIndex()
    requires |s.dropped| == s.core.snapshot.lastIncludedIndex
    requires args.leaderCommit <= args.LastSent() <= |l|
    requires var entries := Splice(s.core.entries, |s.dropped|, args.prevLogIndex, args.entries);
      s.dropped + entries == Merge(s.Log(), l[..args.LastSent()])
    ensures
      var n := s.core.Store(args);
      && n.WellFormed() && s.dropped + n.entries == Merge(s.Log(), l[..args.LastSent()])
      && n == s.core.(entries := n.entries, commitIndex := Max(s.core.commitIndex, args.leaderCommit))
  {
    hide Splice;
    var n := s.core.Store(args);
    assert n.LastLogIndex() == |s.dropped + n.entries|;
  }

  lemma StoredServer(h: History, h': History, members: set<NodeId>, i: NodeId, s: Server, s': Server,
                     args: AppendEntriesArgs)
    requires AcksOk(h, members) && AcksOk(h', members) && ElectionsOk(h, members) && CampaignsOk(h)
    requires GrowsBy(h, h', i) && h' == h.(acks := h.acks + AcksUpTo(i, args.term, args.LastSent()))
    requires ServerOk(h, members, i, s) && AppendOk(h, i, args) && args.term == s.Term() && s.core.role == Follower
    requires s.Log()[..s.core.commitIndex] <= h.leaderLog[args.term]
    requires LayoutOk(members, i, s') && s'.Log() == Merge(s.Log(), h.leaderLog[args.term][..args.LastSent()])
    requires s' == s.(core := s'.core)
    requires s'.core == s.core.(entries := s'.core.entries, commitIndex := Max(s.core.commitIndex, args.leaderCommit))
    ensures ServerOk(h', members, i, s')
  {
    hide Rooted, CampaignsOk, ElectionsOk, AcksOk, KeepsAcks, Covers, Merge;
    var log, log', l, e := s.Log(), s'.Log(), h.leaderLog[args.term], args.LastSent();
    MergeKeeps(log, l, e, log[..s.core.commitIndex]);
    StoredLogOk(h, h', members, s, s', l, e);
    StoredAcks(h, h', members, i, s, s', l, e);
    StoredCommit(h, h', s, s', args);
    assert log'[..s.core.lastApplied] == log'[..s.core.commitIndex][..s.core.lastApplied]
        == log[..s.core.commitIndex][..s.core.lastApplied] == log[..s.core.lastApplied];
  }

  lemma StoredLogOk(h: History, h': History, members: set<NodeId>, s: Server, s': Server, l: Entries, e: nat)
    requires Grows(h, h') && ElectionsOk(h, members) && CampaignsOk(h) && LogOk(h, s)
    requires s.Term() in h.elections && l == h.leaderLog[s.Term()] && e <= |l|
    requires s'.Term() == s.Term() && s'.Log() == Merge(s.Log(), l[..e])
    ensures LogOk(h', s')
  {
    assert LeaderLogOk(h, s.Term());
    LeaderLogTerms(h, members, s.Term());
    PrefixRooted(h, l, e);
    RootedKept(h, h', s'.Log());
  }

  lemma PrefixRooted(h: History, l: Entries, e: nat)
    requires Rooted(h, l) && e <= |l|
    ensures Rooted(h, l[..e])
  {
    forall k | 0 <= k < e
      ensures l[..e][k].index == k + 1 && l[..e][k].term in h.leaderLog && l[..e][..k + 1] <= h.leaderLog[l[k].term]
    {
      assert l[..e][..k + 1] == l[..k + 1];
    }
  }

  lemma StoredAcks(h: History, h': History, members: set<NodeId>, i: NodeId, s: Server, s': Server, l: Entries, e: nat)
    requires Grows(h, h') && AcksOk(h, members) && AcksOk(h', members) && ElectionsOk(h, members)
    requires KeepsAcks(h, members, i, s)
    requires s.Term() in h.elections && l == h.leaderLog[s.Term()] && e <= |l|
    requires h' == h.(acks := h.acks + AcksUpTo(i, s.Term(), e))
    requires s'.Term() == s.Term() && s'.Log() == Merge(s.Log(), l[..e])
    ensures KeepsAcks(h', members, i, s')
  {
    hide Unbroken, Merge, LeaderLogOk, Grows;
    forall a | a in h'.acks && a.node == i
      ensures a.term <= s'.Term()
      ensures Unbroken(h', Acked(h', a), a.term, s'.Term() + 1) ==> Acked(h', a) <= s'.Log()
    {
      if a in h.acks {
        if Unbroken(h', Acked(h', a), a.term, s'.Term() + 1) { OldAckStored(h, h', members, i, s, l, e, a); }
      } else {
        MergeHolds(s.Log(), l[..e], Acked(h', a));
      }
    }
  }

  lemma MergeHolds(log: Entries, sent: Entries, p: Entries)
    requires p <= sent
    ensures p <= Merge(log, sent)
  {
  }

  // What was acknowledged before and never broken is in the leader's log as well.
  lemma OldAckStored(h: History, h': History, members: set<NodeId>, i: NodeId, s: Server, l: Entries, e: nat, a: Ack)
    requires AcksOk(h, members) && AcksOk(h', members) && ElectionsOk(h, members) && KeepsAcks(h, members, i, s)
    requires s.Term() in h.elections && l == h.leaderLog[s.Term()] && e <= |l|
    requires h' == h.(acks := h'.acks) && a in h.acks && a in h'.acks && a.node == i
    requires Unbroken(h', Acked(h', a), a.term, s.Term() + 1)
    ensures Acked(h', a) <= Merge(s.Log(), l[..e])
  {
    hide Merge, Rooted, ElectionOk;
    assert Unbroken(h, Acked(h, a), a.term, s.Term() + 1);
    assert LeaderLogOk(h, s.Term());
    assert Acked(h, a) <= l;
    MergeKeeps(s.Log(), l, e, Acked(h, a));
  }

  // Following the leader's commit index commits nothing the message did not cover.
  lemma StoredCommit(h: History, h': History, s: Server, s': Server, args: AppendEntriesArgs)
    requires Grows(h, h') && ProgressOk(h, s)
    requires args.term in h.leaderLog && args.LastSent() <= |h.leaderLog[args.term]|
    requires args.leaderCommit <= args.LastSent()
    requires CommittedUpTo(h, h.leaderLog[args.term], args.leaderCommit, args.term) && args.term == s.Term()
    requires s'.Term() == s.Term() && s'.dropped == s.dropped && s'.core.lastApplied == s.core.lastApplied
    requires s'.core.commitIndex == Max(s.core.commitIndex, args.leaderCommit)
    requires s'.Log() == Merge(s.Log(), h.leaderLog[args.term][..args.LastSent()])
    requires s.Log()[..s.core.commitIndex] <= s'.Log()
    ensures ProgressOk(h', s')
  {
    var l := h.leaderLog[args.term];
    if args.leaderCommit > s.core.commitIndex {
      assert l[..args.LastSent()] <= s'.Log();
      assert s'.Log()[..args.leaderCommit] == s'.Log()[..args.LastSent()][..args.leaderCommit]
          == l[..args.LastSent()][..args.leaderCommit] == l[..args.leaderCommit];
      CommittedKept(h, h', l, s'.Log(), args.leaderCommit, args.term, args.term);
    } else {
      CommittedKept(h, h', s.Log(), s'.Log(), s.core.commitIndex, s.Term(), s.Term());
    }
  }
}
