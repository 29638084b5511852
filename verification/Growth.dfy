/**
  History only grows, and each step grows it on behalf of one server. What was true of
  logs, messages and other servers therefore stays true.
*/
module Growth {
  import opened Types
  import opened Cluster
  import opened Invariant

  // Nothing recorded is forgotten or altered; leader logs only get longer.
  ghost predicate Grows(h: History, h': History) {
    && (forall b :: b in h.campaigns ==> b in h'.campaigns && h'.campaigns[b] == h.campaigns[b])
    && (forall b :: b in h.votes ==> b in h'.votes && h'.votes[b] == h.votes[b])
    && (forall t :: t in h.elections ==> t in h'.elections && h'.elections[t] == h.elections[t])
    && (forall t :: t in h.leaderLog ==> t in h'.leaderLog && h.leaderLog[t] <= h'.leaderLog[t])
    && h.acks <= h'.acks
    && h.commits <= h'.commits
  }

  // Whatever is new was recorded by server `i`.
  ghost predicate GrowsBy(h: History, h': History, i: NodeId) {
    && Grows(h, h')
    && (forall b :: b in h'.campaigns && b !in h.campaigns ==> b.node == i)
    && (forall b :: b in h'.votes && b !in h.votes ==> b.node == i)
    && (forall t :: t in h'.elections && t !in h.elections ==> h'.elections[t].leader == i)
    && (forall t :: t in h.leaderLog && h'.leaderLog[t] != h.leaderLog[t] ==>
          t in h.elections && h.elections[t].leader == i)
    && (forall a :: a in h'.acks && a !in h.acks ==> a.node == i)
  }

  lemma Unchanged(h: History)
    ensures Grows(h, h)
  {
  }

  lemma GrowsOn(a: History, b: History, c: History)
    requires Grows(a, b) && Grows(b, c)
    ensures Grows(a, c)
  {
    forall t | t in a.leaderLog ensures t in c.leaderLog && a.leaderLog[t] <= c.leaderLog[t] {
      assert a.leaderLog[t] <= b.leaderLog[t] <= c.leaderLog[t];
    }
  }

  lemma GrowsTwice(a: History, b: History, c: History, i: NodeId)
    requires GrowsBy(a, b, i) && GrowsBy(b, c, i) && a.elections.Keys == a.leaderLog.Keys
    ensures GrowsBy(a, c, i)
  {
    forall t | t in a.leaderLog
      ensures t in c.leaderLog && a.leaderLog[t] <= c.leaderLog[t]
      ensures c.leaderLog[t] != a.leaderLog[t] ==> t in a.elections && a.elections[t].leader == i
    {
      assert t in a.elections && t in b.leaderLog;
      assert a.leaderLog[t] <= b.leaderLog[t] <= c.leaderLog[t];
    }
  }

  lemma RootedKept(h: History, h': History, log: Entries)
    requires Grows(h, h') && Rooted(h, log)
    ensures Rooted(h', log)
  {
    forall k | 0 <= k < |log|
      ensures log[k].index == k + 1 && log[k].term in h'.leaderLog && log[..k + 1] <= h'.leaderLog[log[k].term]
    {
      assert log[..k + 1] <= h.leaderLog[log[k].term] <= h'.leaderLog[log[k].term];
    }
  }

  lemma CommittedKept(h: History, h': History, log: Entries, log': Entries, index: nat, t: Term, t': Term)
    requires Grows(h, h') && CommittedUpTo(h, log, index, t) && t <= t'
    requires index <= |log'| && log'[..index] == log[..index]
    ensures CommittedUpTo(h', log', index, t')
  {
    if index > 0 {
      var cm :| cm in h.commits && Covers(h, cm, log, index, t);
      assert h.leaderLog[cm.term] <= h'.leaderLog[cm.term];
      assert Covers(h', cm, log', index, t');
    }
  }

  // A commit at a later index also covers every earlier one.
  lemma CommittedBelow(h: History, log: Entries, index: nat, lower: nat, t: Term)
    requires CommittedUpTo(h, log, index, t) && lower <= index
    ensures CommittedUpTo(h, log, lower, t)
  {
    if lower > 0 {
      var cm :| cm in h.commits && Covers(h, cm, log, index, t);
      assert log[..lower] == log[..index][..lower];
      assert Covers(h, cm, log, lower, t);
    }
  }

  lemma MessageKept(h: History, h': History, members: set<NodeId>, m: Message)
    requires Grows(h, h') && MessageOk(h, members, m)
    ensures MessageOk(h', members, m)
  {
    match m
    case VoteRequest(_, _) =>
    case VoteReply(_, _, _, _) =>
    case AppendReply(_, _, _, _, _) =>
    case Append(to, args) =>
      var l, l' := h.leaderLog[args.term], h'.leaderLog[args.term];
      assert l <= l';
      assert l[..args.leaderCommit] == l'[..args.leaderCommit];
      CommittedKept(h, h', l, l', args.leaderCommit, args.term, args.term);
      assert args.entries == l'[args.prevLogIndex..args.LastSent()];
  }

  // Acknowledged prefixes are fixed once recorded.
  lemma AckedKept(h: History, h': History, a: Ack)
    requires Grows(h, h') && a.term in h.leaderLog && a.upTo <= |h.leaderLog[a.term]|
    ensures a.term in h'.leaderLog && a.upTo <= |h'.leaderLog[a.term]| && Acked(h', a) == Acked(h, a)
  {
    assert h.leaderLog[a.term] <= h'.leaderLog[a.term];
  }

  // ---- servers the step did not touch ----

  lemma OtherRole(h: History, h': History, members: set<NodeId>, i: NodeId, j: NodeId, s: Server)
    requires GrowsBy(h, h', i) && i != j
    requires RoleOk(h, members, j, s)
    ensures RoleOk(h', members, j, s)
  {
  }

  lemma OtherAcks(h: History, h': History, members: set<NodeId>, i: NodeId, j: NodeId, s: Server)
    requires GrowsBy(h, h', i) && i != j
    requires AcksOk(h, members) && AcksOk(h', members)
    requires KeepsAcks(h, members, j, s)
    ensures KeepsAcks(h', members, j, s)
  {
    forall a | a in h'.acks && a.node == j
      ensures a.term <= s.Term()
      ensures Unbroken(h', Acked(h', a), a.term, s.Term() + 1) ==> Acked(h', a) <= s.Log()
    {
      AckedKept(h, h', a);
      if Unbroken(h', Acked(h', a), a.term, s.Term() + 1) {
        assert Unbroken(h, Acked(h, a), a.term, s.Term() + 1);
      }
    }
  }

  lemma OtherServer(h: History, h': History, members: set<NodeId>, i: NodeId, j: NodeId, s: Server)
    requires GrowsBy(h, h', i) && i != j
    requires AcksOk(h, members) && AcksOk(h', members)
    requires ServerOk(h, members, j, s)
    ensures ServerOk(h', members, j, s)
  {
    RootedKept(h, h', s.Log());
    OtherRole(h, h', members, i, j, s);
    OtherAcks(h, h', members, i, j, s);
    CommittedKept(h, h', s.Log(), s.Log(), s.core.commitIndex, s.Term(), s.Term());
  }

  // ---- assembling a step ----

  // One server moved, the history grew on its behalf, and only sound messages were sent.
  lemma StepKeepsInv(c: Cluster, c': Cluster, i: NodeId)
    requires Inv(c) && i in c.servers
    requires i in c'.servers && c'.servers == c.servers[i := c'.servers[i]]
    requires GrowsBy(c.hist, c'.hist, i)
    requires HistoryOk(c'.hist, c.servers.Keys)
    requires ServerOk(c'.hist, c.servers.Keys, i, c'.servers[i])
    requires forall m :: m in c'.net && m !in c.net ==> MessageOk(c'.hist, c.servers.Keys, m)
    ensures Inv(c') && c'.servers.Keys == c.servers.Keys && Grows(c.hist, c'.hist)
  {
    var members := c.servers.Keys;
    assert c'.servers.Keys == members;
    forall m | m in c'.net ensures MessageOk(c'.hist, members, m) {
      if m in c.net { MessageKept(c.hist, c'.hist, members, m); }
    }
    forall j | j in c'.servers ensures ServerOk(c'.hist, members, j, c'.servers[j]) {
      if j != i { OtherServer(c.hist, c'.hist, members, i, j, c.servers[j]); }
    }
  }
}
