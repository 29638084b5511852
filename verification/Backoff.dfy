/**
  Back-off converges: a leader that has not compacted brings any follower up to date in a
  bounded number of rounds of build, handle, reply.
*/
module Backoff {
  import opened Types
  import opened RaftNode
  import opened Splicing
  import opened LeaderRules
  import opened HandlerRules

  datatype Pair = Pair(leader: Node, follower: Node)

  // The leader still has its whole log and a next index within reach of it; the follower
  // holds any log, above any snapshot, and has not moved to a later term.
  ghost predicate Ready(p: Pair, peer: NodeId) {
    && p.leader.role == Leader && p.leader.WellFormed() && p.leader.snapshot == SnapshotMeta(0, 0)
    && 1 <= p.leader.NextFor(peer) <= p.leader.LastLogIndex() + 1
    && p.follower.WellFormed() && p.follower.hard.currentTerm <= p.leader.hard.currentTerm
    && (p.follower.snapshot.lastIncludedIndex == 0 ==> p.follower.snapshot.lastIncludedTerm == 0)
  }

  function Sent(p: Pair, peer: NodeId): AppendEntriesArgs {
    p.leader.BuildAppendEntries(peer)
  }

  // The message in terms of the whole log, which the leader still has.
  lemma SentIsTail(p: Pair, peer: NodeId)
    requires Ready(p, peer)
    ensures
      var next, args := p.leader.NextFor(peer), Sent(p, peer);
      && args.prevLogIndex == next - 1 && args.entries == p.leader.entries[next - 1..]
      && Contiguous(args.entries, next) && args.LastSent() == p.leader.LastLogIndex() == |p.leader.entries|
      && args.term == p.leader.hard.currentTerm
      && args.prevLogTerm == if next == 1 then 0 else p.leader.entries[next - 2].term
  {
    SendIsTail(p.leader, peer);
  }

  function Answer(p: Pair, peer: NodeId): (Node, AppendEntriesReply)
    requires Ready(p, peer)
  {
    SentIsTail(p, peer);
    p.follower.HandleAppendEntries(Sent(p, peer))
  }

  function Round(p: Pair, peer: NodeId): Pair
    requires Ready(p, peer)
  {
    var (follower, reply) := Answer(p, peer);
    Pair(p.leader.OnAppendEntriesReply(peer, Sent(p, peer).LastSent(), reply), follower)
  }

  // ---- the leader's side of a round ----

  // Folding a reply in changes the peer's indices and nothing else but the commit index.
  lemma ReplyRecorded(n: Node, peer: NodeId, lastSent: LogIndex, reply: AppendEntriesReply)
    requires n.role == Leader
    ensures
      var n' := n.OnAppendEntriesReply(peer, lastSent, reply);
      && n' == n.(commitIndex := n'.commitIndex, nextIndex := n'.nextIndex, matchIndex := n'.matchIndex)
      && (if reply.success then n'.NextFor(peer) == lastSent + 1 && n'.MatchOf(peer) == lastSent
          else n'.NextFor(peer) == n.BackedOff(peer, reply))
  {
    hide Node.OnAppendEntriesReply;
    ReplyRule(n, peer, lastSent, reply);
  }

  // ---- the follower's side of a round ----

  // Rejected for its log: the log is unchanged, and the hint points below the next index.
  lemma Rejected(n: Node, args: AppendEntriesArgs)
    requires n.WellFormed() && Contiguous(args.entries, args.prevLogIndex + 1)
    requires n.hard.currentTerm <= args.term && !n.HandleAppendEntries(args).1.success
    ensures
      var (n', reply) := n.HandleAppendEntries(args);
      && n'.entries == n.entries && n'.snapshot == n.snapshot && n'.hard.currentTerm == args.term
      && !n.Accepts(args)
      && (args.prevLogIndex > 0 ==> reply.conflictIndex == Min(n.LastLogIndex() + 1, args.prevLogIndex))
      && (args.prevLogIndex == 0 ==> n.TermAt(0).Some? && n.TermAt(0).value != args.prevLogTerm)
  {
  }

  // Accepted: the log is the splice, and below the message nothing moved.
  lemma Accepted(n: Node, args: AppendEntriesArgs)
    requires n.WellFormed() && Contiguous(args.entries, args.prevLogIndex + 1)
    requires n.hard.currentTerm <= args.term && n.HandleAppendEntries(args).1.success
    ensures
      var n' := n.HandleAppendEntries(args).0;
      && n'.WellFormed() && n'.snapshot == n.snapshot && n'.hard.currentTerm == args.term
      && n.Accepts(args)
      && n'.entries == Splice(n.entries, n.snapshot.lastIncludedIndex, args.prevLogIndex, args.entries)
  {
    hide Splice;
    assert n.LastLogIndex() == n.snapshot.lastIncludedIndex + |n.entries|;
  }

  // ---- one round ----

  // A rejected round keeps both logs and strictly lowers the next index, to the follower's
  // hint; there is no rejection at next index 1.
  lemma RejectedRound(p: Pair, peer: NodeId)
    requires Ready(p, peer) && !Answer(p, peer).1.success
    ensures
      var q := Round(p, peer);
      && Ready(q, peer) && q.leader.NextFor(peer) < p.leader.NextFor(peer)
      && peer in q.leader.nextIndex
      && (if peer in p.leader.nextIndex
          then q.leader.NextFor(peer) == Min(p.follower.LastLogIndex() + 1, p.leader.NextFor(peer) - 1)
          else q.leader.NextFor(peer) == 1)
      && q.leader.entries == p.leader.entries
      && q.follower.entries == p.follower.entries && q.follower.snapshot == p.follower.snapshot
  {
    SentIsTail(p, peer);
    hide Node.BuildAppendEntries, Node.HandleAppendEntries, Node.OnAppendEntriesReply, Contiguous;
    Rejected(p.follower, Sent(p, peer));
    ReplyRecorded(p.leader, peer, Sent(p, peer).LastSent(), Answer(p, peer).1);
  }

  // The follower holds the leader's entries from index `from` on, by term, or covers them
  // by its snapshot.
  ghost predicate Holds(p: Pair, from: LogIndex) {
    forall e :: e in p.leader.entries && e.index >= from ==>
      Present(p.follower.entries, p.follower.snapshot.lastIncludedIndex, e)
  }

  // The same of the entries below `upTo`.
  ghost predicate HoldsBelow(p: Pair, upTo: LogIndex) {
    forall e :: e in p.leader.entries && e.index < upTo ==>
      Present(p.follower.entries, p.follower.snapshot.lastIncludedIndex, e)
  }

  lemma TailHas(es: Entries, next: LogIndex, e: LogEntry)
    requires Contiguous(es, 1) && 1 <= next <= |es| + 1 && e in es && e.index >= next
    ensures e in es[next - 1..]
  {
    var k :| 0 <= k < |es| && es[k] == e;
    assert es[next - 1..][k - (next - 1)] == e;
  }

  // What lies at or below the check is untouched by the splice.
  lemma SpliceKeepsBelow(entries: Entries, snap: LogIndex, prev: LogIndex, es: Entries, e: LogEntry)
    requires Contiguous(entries, snap + 1) && Contiguous(es, prev + 1) && prev <= snap + |entries|
    requires e.index <= prev
    ensures Present(Splice(entries, snap, prev, es), snap, e) == Present(entries, snap, e)
  {
    hide Splice;
    SpliceReaches(entries, snap, prev, es);
  }

  // An accepted round records the leader's last index, every entry sent is there, and
  // what the follower held below is as it was.
  lemma AcceptedRound(p: Pair, peer: NodeId)
    requires Ready(p, peer) && Answer(p, peer).1.success
    ensures
      var q, last := Round(p, peer), p.leader.LastLogIndex();
      && Ready(q, peer) && q.leader.entries == p.leader.entries
      && q.leader.MatchOf(peer) == last && q.leader.NextFor(peer) == last + 1
      && Holds(q, p.leader.NextFor(peer))
      && (HoldsBelow(q, p.leader.NextFor(peer)) <==> HoldsBelow(p, p.leader.NextFor(peer)))
  {
    SentIsTail(p, peer);
    hide Node.BuildAppendEntries, Node.HandleAppendEntries, Node.OnAppendEntriesReply, Splice, Covered, Present;
    var args, f, next := Sent(p, peer), p.follower, p.leader.NextFor(peer);
    var snap := f.snapshot.lastIncludedIndex;
    Accepted(f, args);
    ReplyRecorded(p.leader, peer, args.LastSent(), Answer(p, peer).1);
    var q := Round(p, peer);
    AcceptedEntries(p.leader.entries, next, f.entries, snap, q.follower.entries);
  }

  lemma AcceptedEntries(l: Entries, next: LogIndex, f: Entries, snap: LogIndex, f': Entries)
    requires Contiguous(l, 1) && 1 <= next <= |l| + 1 && Contiguous(f, snap + 1) && next - 1 <= snap + |f|
    requires f' == Splice(f, snap, next - 1, l[next - 1..])
    ensures forall e :: e in l && e.index >= next ==> Present(f', snap, e)
    ensures forall e :: e in l && e.index < next ==> (Present(f', snap, e) <==> Present(f, snap, e))
  {
    hide Splice, Present;
    SpliceStores(f, snap, next - 1, l[next - 1..]);
    forall e | e in l && e.index >= next ensures Present(f', snap, e) {
      TailHas(l, next, e);
    }
    forall e | e in l && e.index < next ensures Present(f', snap, e) <==> Present(f, snap, e) {
      SpliceKeepsBelow(f, snap, next - 1, l[next - 1..], e);
    }
  }

  // ---- the whole exchange ----

  // Rounds until one is accepted: the outcome and their number.
  function CatchUp(p: Pair, peer: NodeId): (r: (Pair, nat))
    requires Ready(p, peer)
    ensures Ready(r.0, peer) && 1 <= r.1 <= p.leader.NextFor(peer)
    decreases p.leader.NextFor(peer)
  {
    if Answer(p, peer).1.success then
      AcceptedRound(p, peer);
      (Round(p, peer), 1)
    else
      RejectedRound(p, peer);
      var (q, n) := CatchUp(Round(p, peer), peer);
      (q, n + 1)
  }

  // The follower would accept a message from next index `x` on: its log reaches that far,
  // and its term in front of `x`, if it still knows it, is the leader's.
  predicate Passes(p: Pair, x: LogIndex)
    requires 1 <= x <= |p.leader.entries| + 1
  {
    var local := p.follower.TermAt(x - 1);
    && x - 1 <= p.follower.LastLogIndex()
    && (local.None? || local.value == if x == 1 then 0 else p.leader.entries[x - 2].term)
  }

  lemma AnswerIff(p: Pair, peer: NodeId)
    requires Ready(p, peer)
    ensures p.leader.LastLogIndex() == |p.leader.entries|
    ensures Answer(p, peer).1.success <==> Passes(p, p.leader.NextFor(peer))
  {
    hide Splice;
    SentIsTail(p, peer);
  }

  // The greatest next index up to `x` that the follower would accept.
  function Greatest(p: Pair, x: LogIndex): (r: LogIndex)
    requires 1 <= x <= |p.leader.entries| + 1 && Passes(p, 1)
    ensures 1 <= r <= x && Passes(p, r)
    ensures forall y :: r < y <= x ==> !Passes(p, y)
  {
    if Passes(p, x) then x else Greatest(p, x - 1)
  }

  // Where the two logs meet, read off the two nodes alone. A peer the leader has no next
  // index for is tried at the end of the log and then from the start.
  function Meeting(p: Pair, peer: NodeId): LogIndex
    requires Ready(p, peer)
  {
    FirstPasses(p, peer);
    if peer in p.leader.nextIndex || Passes(p, p.leader.NextFor(peer)) then Greatest(p, p.leader.NextFor(peer)) else 1
  }

  lemma FirstPasses(p: Pair, peer: NodeId)
    requires Ready(p, peer)
    ensures p.leader.LastLogIndex() == |p.leader.entries| && Passes(p, 1)
  {
  }

  // A rejected round does not move the meeting point.
  lemma MeetingKept(p: Pair, peer: NodeId)
    requires Ready(p, peer) && !Answer(p, peer).1.success
    ensures Ready(Round(p, peer), peer) && Meeting(Round(p, peer), peer) == Meeting(p, peer)
  {
    AnswerIff(p, peer);
    RejectedRound(p, peer);
    hide Answer, Round, Ready;
    var q := Round(p, peer);
    assert forall x | 1 <= x <= |p.leader.entries| + 1 :: Passes(q, x) == Passes(p, x);
    FirstPasses(p, peer);
    FirstPasses(q, peer);
    hide Passes;
  }

  // It ends with the leader's last index recorded. The follower then holds the leader's
  // whole log, by terms, if and only if it held what lies below the meeting point.
  lemma {:induction false} CatchUpExact(p: Pair, peer: NodeId)
    requires Ready(p, peer)
    ensures
      var (q, n) := CatchUp(p, peer);
      && q.leader.entries == p.leader.entries
      && q.leader.MatchOf(peer) == p.leader.LastLogIndex() && q.leader.NextFor(peer) == p.leader.LastLogIndex() + 1
      && Holds(q, Meeting(p, peer)) && (Holds(q, 0) <==> HoldsBelow(p, Meeting(p, peer)))
    decreases p.leader.NextFor(peer)
  {
    hide Answer, Round, Present, Meeting;
    if Answer(p, peer).1.success {
      AcceptedRound(p, peer);
      MeetingAccepted(p, peer);
    } else {
      RejectedRound(p, peer);
      MeetingKept(p, peer);
      CatchUpExact(Round(p, peer), peer);
    }
  }

  lemma MeetingAccepted(p: Pair, peer: NodeId)
    requires Ready(p, peer) && Answer(p, peer).1.success
    ensures Meeting(p, peer) == p.leader.NextFor(peer)
  {
    AnswerIff(p, peer);
    hide Answer, Passes;
  }

  // Log matching, as far as one leader and one follower can see it: whatever the follower
  // shares with the leader, by term, it shares all the way down.
  ghost predicate SharesDown(p: Pair) {
    var f, snap := p.follower.entries, p.follower.snapshot.lastIncludedIndex;
    forall d, e :: d in p.leader.entries && e in p.leader.entries && d.index <= e.index && snap < e.index ==>
      Present(f, snap, e) ==> Present(f, snap, d)
  }

  // Under log matching the exchange always ends with the leader's whole log in place.
  lemma {:induction false} CatchUpConverges(p: Pair, peer: NodeId)
    requires Ready(p, peer) && SharesDown(p)
    ensures
      var (q, n) := CatchUp(p, peer);
      n <= p.leader.NextFor(peer) && Holds(q, 0) && q.leader.MatchOf(peer) == p.leader.LastLogIndex()
    decreases p.leader.NextFor(peer)
  {
    hide Answer, Round, Present;
    CatchUpExact(p, peer);
    if Answer(p, peer).1.success {
      AcceptedMatches(p, peer);
    } else {
      RejectedRound(p, peer);
      CatchUpConverges(Round(p, peer), peer);
    }
  }

  lemma AcceptedMatches(p: Pair, peer: NodeId)
    requires Ready(p, peer) && SharesDown(p) && Answer(p, peer).1.success
    ensures HoldsBelow(p, p.leader.NextFor(peer))
  {
    hide Answer, Present;
    var prev, f, snap := p.leader.NextFor(peer) - 1, p.follower.entries, p.follower.snapshot.lastIncludedIndex;
    forall e | e in p.leader.entries && e.index <= prev ensures Present(f, snap, e) {
      if prev > snap {
        AcceptedCheck(p, peer);
        assert p.leader.entries[prev - 1] in p.leader.entries;
      } else {
        BelowSnapshot(f, snap, e);
      }
    }
  }

  // An accepted message had its check in place.
  lemma AcceptedCheck(p: Pair, peer: NodeId)
    requires Ready(p, peer) && Answer(p, peer).1.success
    requires p.leader.NextFor(peer) - 1 > p.follower.snapshot.lastIncludedIndex
    ensures
      var f, prev := p.follower, p.leader.NextFor(peer) - 1;
      Present(f.entries, f.snapshot.lastIncludedIndex, p.leader.entries[prev - 1])
  {
    hide Node.BuildAppendEntries, Node.HandleAppendEntries, Splice, Present, Node.PrevMatches;
    SentIsTail(p, peer);
    Accepted(p.follower, Sent(p, peer));
    CheckedPresent(p.follower, Sent(p, peer), p.leader.entries[p.leader.NextFor(peer) - 2]);
  }

  lemma BelowSnapshot(entries: Entries, snap: LogIndex, e: LogEntry)
    requires e.index <= snap
    ensures Present(entries, snap, e)
  {
  }

  lemma CheckedPresent(f: Node, args: AppendEntriesArgs, e: LogEntry)
    requires f.WellFormed() && f.snapshot.lastIncludedIndex < args.prevLogIndex <= f.LastLogIndex()
    requires f.PrevMatches(args)
    requires e.index == args.prevLogIndex && e.term == args.prevLogTerm
    ensures Present(f.entries, f.snapshot.lastIncludedIndex, e)
  {
  }

  // A follower that agrees with its leader at the last index and not below it.
  function Skewed(): Pair {
    var meta := SnapshotMeta(0, 0);
    Pair(Node(1, [2], HardState(4, Some(1)), [LogEntry(2, 1, Noop), LogEntry(3, 2, Noop)], meta, Leader, 0, 0, Some(1),
              map[2 := 3], map[2 := 0]),
         Node(2, [1], HardState(4, Some(1)), [LogEntry(1, 1, Noop), LogEntry(3, 2, Noop)], meta, Follower, 0, 0, None,
              map[], map[]))
  }

  lemma SkewedAccepted()
    ensures Ready(Skewed(), 2) && Answer(Skewed(), 2).1.success
  {
    var p := Skewed();
    assert Ready(p, 2);
    assert p.leader.entries[1].term == 3 && p.follower.TermAt(2) == Some(3) && p.follower.LastLogIndex() == 2;
    hide Answer, Ready, Skewed;
    AnswerIff(p, 2);
  }

  lemma SkewedNotHeld()
    ensures Skewed().leader.NextFor(2) == 3 && !HoldsBelow(Skewed(), 3)
  {
    assert LogEntry(2, 1, Noop) in Skewed().leader.entries;
  }

  // Without log matching the exchange can end too early: such a follower is taken to be
  // up to date.
  lemma MatchingNeeded()
    ensures exists p, peer :: Ready(p, peer) && !Holds(CatchUp(p, peer).0, 0)
  {
    hide Answer, Round, Skewed, HoldsBelow, Ready;
    SkewedAccepted();
    SkewedNotHeld();
    MeetingAccepted(Skewed(), 2);
    CatchUpExact(Skewed(), 2);
  }
}
