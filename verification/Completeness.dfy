/**
  Leader completeness, derived from the history alone: an entry a majority
  acknowledged in the term of its leader is in the log of every later leader.
*/
module Completeness {
  import opened Types
  import opened Quorum
  import opened Cluster
  import opened Invariant

  // Log matching: two logs that agree on the term at a position agree up to it.
  lemma LogMatching(h: History, a: Entries, b: Entries, k: nat)
    requires Rooted(h, a) && Rooted(h, b)
    requires k < |a| && k < |b| && a[k].term == b[k].term
    ensures a[..k + 1] == b[..k + 1]
  {
    var l := h.leaderLog[a[k].term];
    assert a[..k + 1] == l[..k + 1] == b[..k + 1];
  }

  // No entry of a leader's log is newer than the leader.
  lemma LeaderLogTerms(h: History, members: set<NodeId>, t: Term)
    requires CampaignsOk(h) && ElectionsOk(h, members) && t in h.elections
    ensures TermsBelow(h.leaderLog[t], t + 1)
  {
    assert TermsBelow(h.elections[t].log, t);
  }

  // A prefix is no newer than the last entry of the log that extends it.
  lemma TermsAscend(h: History, members: set<NodeId>, p: Entries, log: Entries)
    requires CampaignsOk(h) && ElectionsOk(h, members)
    requires Rooted(h, log) && p <= log
    ensures LastTerm(p) <= LastTerm(log)
  {
    if p != [] {
      var last := |log| - 1;
      assert log[..last + 1] <= h.leaderLog[log[last].term];
      LeaderLogTerms(h, members, log[last].term);
      assert p[|p| - 1] == h.leaderLog[log[last].term][|p| - 1];
    }
  }

  // The vote comparison carries a prefix from the voter's log to the candidate's,
  // provided every leader in between was elected holding it.
  lemma RecentLogHolds(h: History, members: set<NodeId>, p: Entries, voter: Entries, candidate: Entries, t: Term)
    requires CampaignsOk(h) && ElectionsOk(h, members)
    requires Rooted(h, voter) && Rooted(h, candidate) && TermsBelow(candidate, t)
    requires p != [] && p <= voter && AtLeastAsRecent(candidate, voter)
    requires Unbroken(h, p, LastTerm(p), t)
    ensures p <= candidate
  {
    TermsAscend(h, members, p, voter);
    if candidate != [] {
      var u := LastTerm(candidate);
      var last := |candidate| - 1;
      assert candidate[..last + 1] == candidate && candidate <= h.leaderLog[u];
      if u == LastTerm(voter) {
        assert voter[..|voter|] == voter && voter <= h.leaderLog[u];
      } else {
        assert p <= h.elections[u].log <= h.leaderLog[u];
        assert TermsBelow(h.elections[u].log, u);
        assert candidate[last] == h.leaderLog[u][last];
      }
    }
  }

  // Some voter of `t` had acknowledged the commit and still held it when it voted.
  lemma SharedVoter(h: History, members: set<NodeId>, cm: Commit, t: Term) returns (log: Entries)
    requires HistoryOk(h, members) && cm in h.commits && CommitOk(h, members, cm)
    requires t in h.elections && cm.term < t
    requires Unbroken(h, h.leaderLog[cm.term][..cm.index], cm.term, t)
    ensures Rooted(h, log) && AtLeastAsRecent(h.elections[t].log, log)
    ensures h.leaderLog[cm.term][..cm.index] <= log
  {
    hide Rooted, LeaderLogOk, AtLeastAsRecent, Unbroken, CommitsOk, CampaignsOk;
    assert ElectionOk(h, members, t, h.elections[t]);
    var w := MajoritiesMeet(members, cm.quorum, h.elections[t].voters);
    var a, b := Ack(w, cm.term, cm.index), Ballot(t, w);
    assert AckedAtVote(h, a, b);
    log := h.votes[b].log;
  }

  // Leader completeness.
  lemma {:induction false} LeaderCompleteness(h: History, members: set<NodeId>, cm: Commit, t: Term)
    requires HistoryOk(h, members)
    requires cm in h.commits && t in h.elections && cm.term < t
    ensures CommitOk(h, members, cm) && h.leaderLog[cm.term][..cm.index] <= h.elections[t].log
    decreases t
  {
    hide Rooted, LeaderLogOk, AtLeastAsRecent, VotesOk, AcksOk, VotesKeepAcks;
    assert CommitOk(h, members, cm);
    var p := h.leaderLog[cm.term][..cm.index];
    forall u | u in h.elections && cm.term < u < t ensures p <= h.elections[u].log {
      LeaderCompleteness(h, members, cm, u);
    }
    var voter := SharedVoter(h, members, cm, t);
    assert ElectionOk(h, members, t, h.elections[t]);
    RecentLogHolds(h, members, p, voter, h.elections[t].log, t);
  }

  // The same for the log a leader ends up with, its own term included.
  lemma CommitReachesLeader(h: History, members: set<NodeId>, cm: Commit, t: Term)
    requires HistoryOk(h, members)
    requires cm in h.commits && t in h.elections && cm.term <= t
    ensures h.leaderLog[cm.term][..cm.index] <= h.leaderLog[t]
  {
    assert CommitOk(h, members, cm);
    if cm.term < t {
      LeaderCompleteness(h, members, cm, t);
      assert LeaderLogOk(h, t);
    }
  }

  lemma PrefixThrough(log: Entries, index: nat, l: Entries, k: nat, m: Entries)
    requires index <= |log| && index <= k <= |l|
    requires log[..index] == l[..index] && l[..k] <= m
    ensures log[..index] <= m
  {
    assert l[..index] == l[..k][..index];
  }

  // Everything committed by term `t` is in the log of the leader of `t`.
  lemma LeaderHoldsCommitted(h: History, members: set<NodeId>, log: Entries, index: nat, t: Term)
    requires HistoryOk(h, members) && t in h.elections
    requires CommittedUpTo(h, log, index, t)
    ensures log[..index] <= h.leaderLog[t]
  {
    if index > 0 {
      var cm :| cm in h.commits && Covers(h, cm, log, index, t);
      CommitReachesLeader(h, members, cm, t);
      PrefixThrough(log, index, h.leaderLog[cm.term], cm.index, h.leaderLog[t]);
    }
  }

  // The term whose leader committed a non-empty prefix.
  lemma CommitTerm(h: History, members: set<NodeId>, log: Entries, index: nat, t: Term) returns (u: Term)
    requires ElectionsOk(h, members)
    requires CommittedUpTo(h, log, index, t) && index > 0
    ensures u in h.elections && forall v: nat :: u <= v ==> CommittedUpTo(h, log, index, v)
  {
    var cm :| cm in h.commits && Covers(h, cm, log, index, t);
    u := cm.term;
    assert forall v: nat :: u <= v ==> Covers(h, cm, log, index, v);
  }

  // Two prefixes committed anywhere, by any terms, agree where both are defined.
  lemma CommitsAgree(h: History, members: set<NodeId>, a: Entries, i: nat, t: Term, b: Entries, j: nat, u: Term)
    requires HistoryOk(h, members)
    requires CommittedUpTo(h, a, i, t) && CommittedUpTo(h, b, j, u)
    ensures a[..Min(i, j)] == b[..Min(i, j)]
  {
    if i > 0 && j > 0 {
      var x := CommitTerm(h, members, a, i, t);
      var y := CommitTerm(h, members, b, j, u);
      var top := Max(x, y);
      LeaderHoldsCommitted(h, members, a, i, top);
      LeaderHoldsCommitted(h, members, b, j, top);
      AgreeBelow(a, i, b, j, h.leaderLog[top]);
    }
  }

  lemma AgreeBelow(a: Entries, i: nat, b: Entries, j: nat, m: Entries)
    requires i <= |a| && j <= |b| && a[..i] <= m && b[..j] <= m
    ensures a[..Min(i, j)] == b[..Min(i, j)]
  {
    assert a[..Min(i, j)] == a[..i][..Min(i, j)] == b[..j][..Min(i, j)] == b[..Min(i, j)];
  }
}
