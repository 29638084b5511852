/**
  A run in which a leader compacts past a peer: three nodes that snapshot after every entry.
  The third node leads in term 1 and gets its first entry to everyone; it commits and
  compacts it, and appends a second entry that nobody else sees. The first node leads in
  term 2 and gets another second entry to the second node. It leads again in term 3 with a
  third entry, which the third node refuses; the refusal arrives twice. With the help of the
  second node it then commits and compacts everything.
*/
module Scenario {
  import opened Types
  import opened Quorum
  import opened RaftNode
  import opened Splicing
  import opened StateMachine
  import opened LeaderRules
  import opened Cluster
  import opened Steps
  import opened Theorems

  const FIRST := LogEntry(1, 1, Noop)
  const STALE := LogEntry(1, 2, Noop)
  const SECOND := LogEntry(2, 2, Noop)
  const THIRD := LogEntry(3, 3, Noop)
  const FIRST_MESSAGE := AppendEntriesArgs(1, 3, 0, 0, [FIRST], 0)
  const SECOND_MESSAGE := AppendEntriesArgs(2, 1, 1, 1, [SECOND], 0)
  const THIRD_MESSAGE := AppendEntriesArgs(3, 1, 2, 2, [THIRD], 0)

  function Peers(i: NodeId): seq<NodeId> {
    if i == 1 then [2, 3] else if i == 2 then [1, 3] else [1, 2]
  }

  function Fresh(i: NodeId): Node {
    Node(i, Peers(i), HardState(0, None), [], NO_SNAPSHOT, Follower, 0, 0, None, map[], map[])
  }

  function At(n: Node, granted: set<NodeId>): Server {
    Server(n, granted, Open(None, 1), [])
  }

  function Start(): Cluster {
    Cluster(map[1 := At(Fresh(1), {}), 2 := At(Fresh(2), {}), 3 := At(Fresh(3), {})], {},
            History(map[], map[], map[], map[], {}, {}))
  }

  // ---- the nodes on their way ----

  function Candidate3(): Node {
    Fresh(3).(role := Candidate, hard := HardState(1, Some(3)))
  }

  function Voter1(): Node {
    Fresh(1).(hard := HardState(1, Some(3)))
  }

  function Leader3(): Node {
    Candidate3().(role := Leader, leaderId := Some(3), entries := [FIRST],
                  nextIndex := map[1 := 1, 2 := 1], matchIndex := map[1 := 0, 2 := 0])
  }

  function Holder1(): Node {
    Voter1().(entries := [FIRST], leaderId := Some(3))
  }

  function Holder2(): Node {
    Fresh(2).(hard := HardState(1, None), entries := [FIRST], leaderId := Some(3))
  }

  function Committed3(): Node {
    Leader3().(commitIndex := 1, nextIndex := map[1 := 2, 2 := 1], matchIndex := map[1 := 1, 2 := 0])
  }

  function Compacted3(): Node {
    Committed3().(entries := [], lastApplied := 1, snapshot := SnapshotMeta(1, 1))
  }

  function Deposed3(): Node {
    Compacted3().(entries := [STALE])
  }

  function Candidate1(): Node {
    Holder1().(role := Candidate, hard := HardState(2, Some(1)), leaderId := None)
  }

  function Voter2(): Node {
    Holder2().(hard := HardState(2, Some(1)), leaderId := None)
  }

  function Leader1(): Node {
    Candidate1().(role := Leader, leaderId := Some(1), entries := [FIRST, SECOND],
                  nextIndex := map[2 := 2, 3 := 2], matchIndex := map[2 := 0, 3 := 0])
  }

  function Keeper2(): Node {
    Voter2().(entries := [FIRST, SECOND], leaderId := Some(1))
  }

  function Again1(): Node {
    Leader1().(role := Candidate, hard := HardState(3, Some(1)), leaderId := None)
  }

  function Again2(): Node {
    Keeper2().(hard := HardState(3, Some(1)), leaderId := None)
  }

  function Returned1(): Node {
    Again1().(role := Leader, leaderId := Some(1), entries := [FIRST, SECOND, THIRD],
              nextIndex := map[2 := 3, 3 := 3], matchIndex := map[2 := 0, 3 := 0])
  }

  function Follower3(): Node {
    Deposed3().(hard := HardState(3, None), role := Follower, leaderId := Some(1))
  }

  function BackedOff1(next: LogIndex): Node {
    Returned1().(nextIndex := map[2 := 3, 3 := next])
  }

  function Committed1(): Node {
    Returned1().(commitIndex := 3, nextIndex := map[2 := 4, 3 := 1], matchIndex := map[2 := 3, 3 := 0])
  }

  function Compacted1(): Node {
    Committed1().(entries := [], lastApplied := 3, snapshot := SnapshotMeta(3, 3))
  }

  // In a cluster of three the first vote wins.
  lemma Wins(c: Cluster, i: NodeId, v: NodeId, m: Message)
    requires i in c.servers && c.servers[i].core.role == Candidate && c.servers[i].granted == {}
    requires |c.servers[i].core.peers| == 2 && m in c.net
    requires m == VoteReply(v, i, c.servers[i].Term(), RequestVoteReply(c.servers[i].Term(), true))
    ensures Takes(c, Deliver(m), Exec(c, Deliver(m)))
    ensures
      var s := c.servers[i];
      Exec(c, Deliver(m)).servers == c.servers[i := s.(core := TakesOffice(s.core), granted := {v})]
  {
    hide Exec, Enabled, TakesOffice;
    assert {} + {v} == {v};
    VoteCounts(c, i, v, m);
  }

  // ---- what the handlers make of these nodes ----

  // The middle one of three is the quorum index.
  lemma Middle(ms: seq<nat>, a: nat, b: nat, c: nat)
    requires a >= b >= c && multiset(ms) == multiset([a, b, c])
    ensures IsQuorumIndex(ms, 2, b)
  {
    hide IsQuorumIndex;
    SortedPick(ms, [a, b, c], 2);
  }

  // The commit rule in a cluster of three.
  lemma MiddleCommits(n: Node, p: NodeId, q: NodeId, ms: seq<nat>, b: nat)
    requires n.peers == [p, q] && ms == [n.MatchOf(p), n.MatchOf(q), n.LastLogIndex()] && IsQuorumIndex(ms, 2, b)
    ensures
      var moves := b > n.commitIndex && n.TermAt(b) == Some(n.hard.currentTerm);
      n.AdvanceCommitIndex() == if moves then n.(commitIndex := b) else n
  {
    hide Node.AdvanceCommitIndex, IsQuorumIndex, Node.Matches, Node.Quorum;
    MatchesOfTwo(n, p, q);
    CommitRule(n);
  }

  lemma MatchesOfTwo(n: Node, a: NodeId, b: NodeId)
    requires n.peers == [a, b]
    ensures n.Matches() == [n.MatchOf(a), n.MatchOf(b), n.LastLogIndex()] && n.Quorum() == 2
  {
  }

  lemma ThirdSupported()
    ensures Fresh(3).BecomeCandidate() == (Candidate3(), RequestVoteArgs(1, 3, 0, 0))
    ensures Fresh(1).HandleRequestVote(RequestVoteArgs(1, 3, 0, 0)) == (Voter1(), RequestVoteReply(1, true))
  {
  }

  lemma ThirdInOffice()
    ensures Candidate3().BecomeLeader().AppendCommand(Noop) == Ok(Leader3())
  {
    var n := Candidate3().BecomeLeader();
    assert [] + [FIRST] == [FIRST];
    assert n.nextIndex == map[1 := 1, 2 := 1];
    assert n.matchIndex == map[1 := 0, 2 := 0];
  }

  lemma ThirdElected()
    ensures TakesOffice(Candidate3()) == Leader3()
  {
    ThirdInOffice();
    hide Node.AdvanceCommitIndex, Node.BecomeLeader, Node.AppendCommand, IsQuorumIndex;
    assert multiset([0, 0, 1]) == multiset([1, 0, 0]);
    Middle([0, 0, 1], 1, 0, 0);
    MiddleCommits(Leader3(), 1, 2, [0, 0, 1], 0);
  }

  lemma FirstSent()
    ensures CanSend(Leader3(), 1) && CanSend(Leader3(), 2)
    ensures Leader3().BuildAppendEntries(1) == FIRST_MESSAGE && Leader3().BuildAppendEntries(2) == FIRST_MESSAGE
  {
    assert Leader3().entries[0..] == [FIRST];
  }

  lemma FirstStored()
    ensures Contiguous(FIRST_MESSAGE.entries, 1)
    ensures Voter1().CanHandle(FIRST_MESSAGE)
    ensures Voter1().HandleAppendEntries(FIRST_MESSAGE) == (Holder1(), AppendEntriesReply(1, true, 0))
    ensures Fresh(2).CanHandle(FIRST_MESSAGE)
    ensures Fresh(2).HandleAppendEntries(FIRST_MESSAGE) == (Holder2(), AppendEntriesReply(1, true, 0))
  {
    hide Splice, Covered, Present;
    TakesFirst(Voter1());
    TakesFirst(Fresh(2));
  }

  // An empty node of no later term takes the first message.
  lemma TakesFirst(n: Node)
    requires n.entries == [] && n.snapshot == NO_SNAPSHOT && n.hard.currentTerm <= 1 && n.commitIndex == 0
    ensures Contiguous(FIRST_MESSAGE.entries, 1) && n.CanHandle(FIRST_MESSAGE)
    ensures n.HandleAppendEntries(FIRST_MESSAGE)
      == (n.Recognise(FIRST_MESSAGE).(entries := [FIRST]), AppendEntriesReply(1, true, 0))
  {
    FirstSpliced();
    hide Splice, Covered, Present;
    assert n.LastLogIndex() == 0 && n.WellFormed() && FIRST_MESSAGE.Start() == 0 && n.Extends(FIRST_MESSAGE);
  }

  lemma FirstSpliced()
    ensures Splice([], 0, 0, [FIRST]) == [FIRST]
  {
    SpliceReaches([], 0, 0, [FIRST]);
    assert !Present([], 0, FIRST);
  }

  lemma FirstCommitted()
    ensures Leader3().RecordReply(1, 1, AppendEntriesReply(1, true, 0)).AdvanceCommitIndex() == Committed3()
  {
    var n := Leader3().RecordReply(1, 1, AppendEntriesReply(1, true, 0));
    assert n.nextIndex == map[1 := 2, 2 := 1] && n.matchIndex == map[1 := 1, 2 := 0];
    hide Node.AdvanceCommitIndex, IsQuorumIndex;
    assert multiset([1, 0, 1]) == multiset([1, 1, 0]);
    Middle([1, 0, 1], 1, 1, 0);
    MiddleCommits(n, 1, 2, [1, 0, 1], 1);
  }

  lemma FirstBatch()
    ensures Committed3().WellFormed() && Committed3().Committed() == [FIRST]
    ensures ApplyAll(Open(None, 1).table, [FIRST]) == Table(map[], 1)
  {
    var n, es := Committed3(), [FIRST];
    assert n.entries == es && n.LastLogIndex() == 1 && es[0..1] == es && es[1..] == [];
    assert Apply(Open(None, 1).table, 1, Noop) == Table(map[], 1);
    hide Contiguous;
  }

  lemma FirstApplied()
    ensures Committed3().WellFormed()
    ensures var s := Applied(At(Committed3(), {1})); s.core == Compacted3() && s.dropped == [FIRST]
  {
    FirstBatch();
    hide Node.Committed, ApplyAll;
    assert [FIRST][1..] == [];
  }

  lemma StaleAppended()
    ensures Compacted3().AppendCommand(Noop).value.AdvanceCommitIndex() == Deposed3()
  {
    assert [] + [STALE] == [STALE];
    hide Node.AdvanceCommitIndex, IsQuorumIndex;
    assert multiset([1, 0, 2]) == multiset([2, 1, 0]);
    Middle([1, 0, 2], 2, 1, 0);
    MiddleCommits(Deposed3(), 1, 2, [1, 0, 2], 1);
  }

  lemma FirstSupported()
    ensures Holder1().BecomeCandidate() == (Candidate1(), RequestVoteArgs(2, 1, 1, 1))
    ensures Holder2().HandleRequestVote(RequestVoteArgs(2, 1, 1, 1)) == (Voter2(), RequestVoteReply(2, true))
  {
  }

  lemma FirstInOffice()
    ensures Candidate1().BecomeLeader().AppendCommand(Noop) == Ok(Leader1())
  {
    var n := Candidate1().BecomeLeader();
    assert [FIRST] + [SECOND] == [FIRST, SECOND];
    assert n.nextIndex == map[2 := 2, 3 := 2];
    assert n.matchIndex == map[2 := 0, 3 := 0];
  }

  lemma FirstElected()
    ensures TakesOffice(Candidate1()) == Leader1()
  {
    FirstInOffice();
    hide Node.AdvanceCommitIndex, Node.BecomeLeader, Node.AppendCommand, IsQuorumIndex;
    assert multiset([0, 0, 2]) == multiset([2, 0, 0]);
    Middle([0, 0, 2], 2, 0, 0);
    MiddleCommits(Leader1(), 2, 3, [0, 0, 2], 0);
  }

  lemma SecondSent()
    ensures CanSend(Leader1(), 2) && Leader1().BuildAppendEntries(2) == SECOND_MESSAGE
  {
    assert Leader1().entries[1..] == [SECOND];
  }

  lemma SecondStored()
    ensures Contiguous(SECOND_MESSAGE.entries, 2) && Voter2().CanHandle(SECOND_MESSAGE)
    ensures Voter2().HandleAppendEntries(SECOND_MESSAGE) == (Keeper2(), AppendEntriesReply(2, true, 0))
  {
    Extended([FIRST], SECOND);
    hide Splice, Covered, Present;
    var n := Voter2();
    assert n.entries == [FIRST] && n.LastLogIndex() == 1 && n.TermAt(1) == Some(1) && n.WellFormed();
    assert SECOND_MESSAGE.Start() == 1 && n.Extends(SECOND_MESSAGE);
    assert [FIRST] + [SECOND] == [FIRST, SECOND];
  }

  // The splice of the next entry of all appends it.
  lemma Extended(entries: Entries, e: LogEntry)
    requires Contiguous(entries, 1) && e.index == |entries| + 1
    ensures Contiguous([e], |entries| + 1) && Splice(entries, 0, |entries|, [e]) == entries + [e]
  {
    SpliceReaches(entries, 0, |entries|, [e]);
    assert !Present(entries, 0, e);
  }

  lemma FirstSupportedAgain()
    ensures Leader1().BecomeCandidate() == (Again1(), RequestVoteArgs(3, 1, 2, 2))
    ensures Keeper2().HandleRequestVote(RequestVoteArgs(3, 1, 2, 2)) == (Again2(), RequestVoteReply(3, true))
  {
  }

  lemma FirstReturns()
    ensures Again1().BecomeLeader().AppendCommand(Noop) == Ok(Returned1())
  {
    var n := Again1().BecomeLeader();
    assert [FIRST, SECOND] + [THIRD] == [FIRST, SECOND, THIRD];
    assert n.nextIndex == map[2 := 3, 3 := 3];
    assert n.matchIndex == map[2 := 0, 3 := 0];
  }

  lemma FirstElectedAgain()
    ensures TakesOffice(Again1()) == Returned1()
  {
    FirstReturns();
    hide Node.AdvanceCommitIndex, Node.BecomeLeader, Node.AppendCommand, IsQuorumIndex;
    assert multiset([0, 0, 3]) == multiset([3, 0, 0]);
    Middle([0, 0, 3], 3, 0, 0);
    MiddleCommits(Returned1(), 2, 3, [0, 0, 3], 0);
  }

  lemma ThirdSent()
    ensures CanSend(Returned1(), 3) && Returned1().BuildAppendEntries(3) == THIRD_MESSAGE
    ensures CanSend(BackedOff1(1), 2) && BackedOff1(1).BuildAppendEntries(2) == THIRD_MESSAGE
  {
    assert Returned1().entries[2..] == [THIRD];
  }

  lemma ThirdRefused()
    ensures Contiguous(THIRD_MESSAGE.entries, 3) && Deposed3().CanHandle(THIRD_MESSAGE)
    ensures Deposed3().HandleAppendEntries(THIRD_MESSAGE) == (Follower3(), AppendEntriesReply(3, false, 2))
  {
    hide Splice, Covered, Present;
    var n := Deposed3();
    assert n.LastLogIndex() == 2 && n.TermAt(2) == Some(1) && n.WellFormed();
  }

  // The refusal lowers the next index, and once more when it comes a second time.
  lemma RefusedTwice()
    ensures Returned1().RecordReply(3, 3, AppendEntriesReply(3, false, 2)) == BackedOff1(2)
    ensures BackedOff1(2).RecordReply(3, 3, AppendEntriesReply(3, false, 2)) == BackedOff1(1)
  {
    assert map[2 := 3, 3 := 3][3 := 2] == map[2 := 3, 3 := 2];
    assert map[2 := 3, 3 := 2][3 := 1] == map[2 := 3, 3 := 1];
  }

  lemma ThirdStored()
    ensures Contiguous(THIRD_MESSAGE.entries, 3) && Again2().CanHandle(THIRD_MESSAGE)
    ensures Again2().HandleAppendEntries(THIRD_MESSAGE).1 == AppendEntriesReply(3, true, 0)
  {
    hide Splice, Covered, Present;
    var n := Again2();
    assert n.entries == [FIRST, SECOND] && n.LastLogIndex() == 2 && n.TermAt(2) == Some(2) && n.WellFormed();
    assert THIRD_MESSAGE.Start() == 2 && n.Extends(THIRD_MESSAGE);
  }

  lemma ThirdCommitted()
    ensures BackedOff1(1).RecordReply(2, 3, AppendEntriesReply(3, true, 0)).AdvanceCommitIndex() == Committed1()
  {
    var n := BackedOff1(1).RecordReply(2, 3, AppendEntriesReply(3, true, 0));
    assert n.nextIndex == map[2 := 4, 3 := 1] && n.matchIndex == map[2 := 3, 3 := 0];
    hide Node.AdvanceCommitIndex, IsQuorumIndex;
    assert multiset([3, 0, 3]) == multiset([3, 3, 0]);
    Middle([3, 0, 3], 3, 3, 0);
    MiddleCommits(n, 2, 3, [3, 0, 3], 3);
  }

  lemma ThirdTable()
    ensures ApplyAll(Open(None, 1).table, [FIRST, SECOND, THIRD]) == Table(map[], 3)
  {
    var es := [FIRST, SECOND, THIRD];
    assert es[1..] == [SECOND, THIRD] && [SECOND, THIRD][1..] == [THIRD] && [THIRD][1..] == [];
    assert ApplyAll(Table(map[], 2), [THIRD]) == Table(map[], 3);
    assert ApplyAll(Table(map[], 1), [SECOND, THIRD]) == Table(map[], 3);
  }

  lemma ThirdBatch()
    ensures Committed1().WellFormed() && Committed1().Committed() == [FIRST, SECOND, THIRD]
  {
    var n, es := Committed1(), [FIRST, SECOND, THIRD];
    assert n.entries == es && n.LastLogIndex() == 3 && es[0..3] == es;
    hide Contiguous;
  }

  lemma ThirdApplied()
    ensures Committed1().WellFormed()
    ensures
      var s := Applied(At(Committed1(), {2}));
      s.core == Compacted1() && s.dropped == [FIRST, SECOND, THIRD]
  {
    ThirdBatch();
    ThirdTable();
    hide Node.Committed, ApplyAll;
    var es := [FIRST, SECOND, THIRD];
    assert es[3..] == [] && [] + es == es && es[..3] == es;
  }

  // ---- the run ----

  lemma StartInit()
    ensures Init(Start())
  {
    var c := Start();
    forall i | i in c.servers ensures FreshServer(c.servers.Keys, i, c.servers[i]) {
      assert PeersOf(Peers(i), c.servers.Keys, i);
    }
  }

  // The term of the third node, up to where its entry is everywhere.
  lemma ThirdLeads() returns (run: seq<Cluster>)
    ensures IsRun(run)
    ensures
      var c := run[|run| - 1];
      && 1 in c.servers && c.servers[1] == At(Voter1(), {})
      && 2 in c.servers && c.servers[2] == At(Fresh(2), {})
      && 3 in c.servers && c.servers[3] == At(Leader3(), {1})
  {
    StartInit();
    ThirdSupported();
    ThirdElected();
    var c0 := Start();
    hide Enabled, Exec, Init, Leader3, TakesOffice;
    TimesOut(c0, 3);
    var c1 := Exec(c0, Timeout(3));
    Votes(c1, 1, RequestVoteArgs(1, 3, 0, 0));
    var c2 := Exec(c1, Deliver(VoteRequest(1, RequestVoteArgs(1, 3, 0, 0))));
    var m := VoteReply(1, 3, 1, RequestVoteReply(1, true));
    Wins(c2, 3, 1, m);
    run := [c0, c1, c2, Exec(c2, Deliver(m))];
  }

  lemma ThirdSends() returns (run: seq<Cluster>)
    ensures IsRun(run)
    ensures
      var c := run[|run| - 1];
      && 1 in c.servers && c.servers[1] == At(Voter1(), {})
      && 2 in c.servers && c.servers[2] == At(Fresh(2), {})
      && 3 in c.servers && c.servers[3] == At(Leader3(), {1})
      && Append(1, FIRST_MESSAGE) in c.net && Append(2, FIRST_MESSAGE) in c.net
  {
    run := ThirdLeads();
    var c0 := run[|run| - 1];
    FirstSent();
    hide IsRun, Enabled, Exec, CanSend, Leader3, Voter1, Fresh, Node.BuildAppendEntries;
    Sends(c0, 3, 1);
    var c1 := Exec(c0, Replicate(3, 1));
    Sends(c1, 3, 2);
    var c2 := Exec(c1, Replicate(3, 2));
    RunGoesOn(run, Replicate(3, 1), c1);
    RunGoesOn(run + [c1], Replicate(3, 2), c2);
    run := run + [c1] + [c2];
  }

  lemma ThirdSpreads() returns (run: seq<Cluster>)
    ensures IsRun(run)
    ensures
      var c := run[|run| - 1];
      && 1 in c.servers && c.servers[1] == At(Holder1(), {})
      && 2 in c.servers && c.servers[2] == At(Holder2(), {})
      && 3 in c.servers && c.servers[3] == At(Leader3(), {1})
      && AppendReply(1, 3, 1, 1, AppendEntriesReply(1, true, 0)) in c.net
  {
    run := ThirdSends();
    var c0 := run[|run| - 1];
    FirstStored();
    hide IsRun, Enabled, Exec, OnAppend, Leader3, Holder1, Holder2, Voter1, Fresh, Node.CanHandle,
      Node.HandleAppendEntries;
    AppendTaken(c0, 2, FIRST_MESSAGE);
    var c1 := OnAppend(c0, 2, FIRST_MESSAGE);
    AppendTaken(c1, 1, FIRST_MESSAGE);
    var c2 := OnAppend(c1, 1, FIRST_MESSAGE);
    RunGoesOn(run, Deliver(Append(2, FIRST_MESSAGE)), c1);
    RunGoesOn(run + [c1], Deliver(Append(1, FIRST_MESSAGE)), c2);
    run := run + [c1] + [c2];
  }

  // It commits and compacts that entry and appends another.
  lemma ThirdCommits() returns (run: seq<Cluster>)
    ensures IsRun(run)
    ensures
      var c := run[|run| - 1];
      && 1 in c.servers && c.servers[1] == At(Holder1(), {})
      && 2 in c.servers && c.servers[2] == At(Holder2(), {})
      && 3 in c.servers && c.servers[3] == At(Committed3(), {1})
  {
    run := ThirdSpreads();
    var c0, m := run[|run| - 1], AppendReply(1, 3, 1, 1, AppendEntriesReply(1, true, 0));
    FirstCommitted();
    assert Leader3().role == Leader && At(Leader3(), {1}).Term() == 1;
    hide IsRun, Enabled, Exec, Leader3, Holder1, Holder2, Committed3, Node.AdvanceCommitIndex, Node.RecordReply;
    Counts(c0, 1, 3, 1, m, Committed3());
    var c1 := Exec(c0, Deliver(m));
    RunGoesOn(run, Deliver(m), c1);
    run := run + [c1];
  }

  lemma ThirdMovesOn() returns (run: seq<Cluster>)
    ensures IsRun(run)
    ensures
      var c := run[|run| - 1];
      && 1 in c.servers && c.servers[1] == At(Holder1(), {})
      && 2 in c.servers && c.servers[2] == At(Holder2(), {})
      && 3 in c.servers && c.servers[3].core == Deposed3() && c.servers[3].dropped == [FIRST]
  {
    run := ThirdCommits();
    var c0 := run[|run| - 1];
    FirstApplied();
    StaleAppended();
    assert Compacted3().role == Leader;
    hide IsRun, Enabled, Exec, Holder1, Holder2, Committed3, Compacted3, Deposed3, Applied, Node.AdvanceCommitIndex,
      Node.AppendCommand, Node.WellFormed;
    Applies(c0, 3);
    var c1 := Exec(c0, ApplyCommitted(3));
    Proposes(c1, 3);
    var c2 := Exec(c1, Propose(3, Noop));
    RunGoesOn(run, ApplyCommitted(3), c1);
    RunGoesOn(run + [c1], Propose(3, Noop), c2);
    run := run + [c1] + [c2];
  }

  lemma FirstCampaigns() returns (run: seq<Cluster>)
    ensures IsRun(run)
    ensures
      var c := run[|run| - 1];
      && 1 in c.servers && c.servers[1] == At(Candidate1(), {})
      && 2 in c.servers && c.servers[2] == At(Voter2(), {})
      && 3 in c.servers && c.servers[3].core == Deposed3() && c.servers[3].dropped == [FIRST]
      && VoteReply(2, 1, 2, RequestVoteReply(2, true)) in c.net
  {
    run := ThirdMovesOn();
    var c0 := run[|run| - 1];
    FirstSupported();
    hide IsRun, Enabled, Exec, Deposed3, Node.HandleRequestVote;
    TimesOut(c0, 1);
    var c1, args := Exec(c0, Timeout(1)), RequestVoteArgs(2, 1, 1, 1);
    Votes(c1, 2, args);
    var c2 := Exec(c1, Deliver(VoteRequest(2, args)));
    RunGoesOn(run, Timeout(1), c1);
    RunGoesOn(run + [c1], Deliver(VoteRequest(2, args)), c2);
    run := run + [c1] + [c2];
  }

  lemma FirstLeads() returns (run: seq<Cluster>)
    ensures IsRun(run)
    ensures
      var c := run[|run| - 1];
      && 1 in c.servers && c.servers[1] == At(Leader1(), {2})
      && 2 in c.servers && c.servers[2] == At(Voter2(), {})
      && 3 in c.servers && c.servers[3].core == Deposed3() && c.servers[3].dropped == [FIRST]
  {
    run := FirstCampaigns();
    var c0, m := run[|run| - 1], VoteReply(2, 1, 2, RequestVoteReply(2, true));
    FirstElected();
    hide IsRun, Enabled, Exec, Leader1, Voter2, Deposed3, TakesOffice;
    Wins(c0, 1, 2, m);
    var c1 := Exec(c0, Deliver(m));
    RunGoesOn(run, Deliver(m), c1);
    run := run + [c1];
  }

  lemma FirstReplicates() returns (run: seq<Cluster>)
    ensures IsRun(run)
    ensures
      var c := run[|run| - 1];
      && 1 in c.servers && c.servers[1] == At(Leader1(), {2})
      && 2 in c.servers && c.servers[2] == At(Keeper2(), {})
      && 3 in c.servers && c.servers[3].core == Deposed3() && c.servers[3].dropped == [FIRST]
  {
    run := FirstLeads();
    var c0 := run[|run| - 1];
    SecondSent();
    SecondStored();
    hide IsRun, Enabled, Exec, OnAppend, CanSend, Leader1, Deposed3, Voter2, Keeper2, Node.CanHandle,
      Node.HandleAppendEntries, Node.BuildAppendEntries;
    Sends(c0, 1, 2);
    var c1 := Exec(c0, Replicate(1, 2));
    AppendTaken(c1, 2, SECOND_MESSAGE);
    var c2 := OnAppend(c1, 2, SECOND_MESSAGE);
    RunGoesOn(run, Replicate(1, 2), c1);
    RunGoesOn(run + [c1], Deliver(Append(2, SECOND_MESSAGE)), c2);
    run := run + [c1] + [c2];
  }

  lemma FirstCampaignsAgain() returns (run: seq<Cluster>)
    ensures IsRun(run)
    ensures
      var c := run[|run| - 1];
      && 1 in c.servers && c.servers[1] == At(Again1(), {})
      && 2 in c.servers && c.servers[2] == At(Again2(), {})
      && 3 in c.servers && c.servers[3].core == Deposed3() && c.servers[3].dropped == [FIRST]
      && VoteReply(2, 1, 3, RequestVoteReply(3, true)) in c.net
  {
    run := FirstReplicates();
    var c0 := run[|run| - 1];
    FirstSupportedAgain();
    hide IsRun, Enabled, Exec, Deposed3, Node.HandleRequestVote;
    TimesOut(c0, 1);
    var c1, args := Exec(c0, Timeout(1)), RequestVoteArgs(3, 1, 2, 2);
    Votes(c1, 2, args);
    var c2 := Exec(c1, Deliver(VoteRequest(2, args)));
    RunGoesOn(run, Timeout(1), c1);
    RunGoesOn(run + [c1], Deliver(VoteRequest(2, args)), c2);
    run := run + [c1] + [c2];
  }

  lemma FirstLeadsAgain() returns (run: seq<Cluster>)
    ensures IsRun(run)
    ensures
      var c := run[|run| - 1];
      && 1 in c.servers && c.servers[1] == At(Returned1(), {2})
      && 2 in c.servers && c.servers[2] == At(Again2(), {})
      && 3 in c.servers && c.servers[3].core == Deposed3() && c.servers[3].dropped == [FIRST]
  {
    run := FirstCampaignsAgain();
    var c0, m := run[|run| - 1], VoteReply(2, 1, 3, RequestVoteReply(3, true));
    FirstElectedAgain();
    hide IsRun, Enabled, Exec, Returned1, Again2, Deposed3, TakesOffice;
    Wins(c0, 1, 2, m);
    var c1 := Exec(c0, Deliver(m));
    RunGoesOn(run, Deliver(m), c1);
    run := run + [c1];
  }

  lemma ThirdRefuses() returns (run: seq<Cluster>)
    ensures IsRun(run)
    ensures
      var c := run[|run| - 1];
      && 1 in c.servers && c.servers[1] == At(Returned1(), {2})
      && 2 in c.servers && c.servers[2] == At(Again2(), {})
      && 3 in c.servers && c.servers[3].core == Follower3() && c.servers[3].dropped == [FIRST]
      && AppendReply(3, 1, 3, 3, AppendEntriesReply(3, false, 2)) in c.net
  {
    run := FirstLeadsAgain();
    var c0 := run[|run| - 1];
    ThirdSent();
    ThirdRefused();
    hide IsRun, Enabled, Exec, OnAppend, CanSend, Returned1, BackedOff1, Deposed3, Follower3, Again2, Node.CanHandle,
      Node.HandleAppendEntries, Node.BuildAppendEntries;
    Sends(c0, 1, 3);
    var c1 := Exec(c0, Replicate(1, 3));
    AppendTaken(c1, 3, THIRD_MESSAGE);
    var c2 := OnAppend(c1, 3, THIRD_MESSAGE);
    RunGoesOn(run, Replicate(1, 3), c1);
    RunGoesOn(run + [c1], Deliver(Append(3, THIRD_MESSAGE)), c2);
    run := run + [c1] + [c2];
  }

  lemma FirstBacksOff() returns (run: seq<Cluster>)
    ensures IsRun(run)
    ensures
      var c := run[|run| - 1];
      && 1 in c.servers && c.servers[1] == At(BackedOff1(1), {2})
      && 2 in c.servers && c.servers[2] == At(Again2(), {})
      && 3 in c.servers && c.servers[3].core == Follower3() && c.servers[3].dropped == [FIRST]
  {
    run := ThirdRefuses();
    var c0, m := run[|run| - 1], AppendReply(3, 1, 3, 3, AppendEntriesReply(3, false, 2));
    RefusedTwice();
    assert forall k: LogIndex :: BackedOff1(k).role == Leader && At(BackedOff1(k), {2}).Term() == 3;
    assert Returned1().role == Leader && At(Returned1(), {2}).Term() == 3;
    hide IsRun, Enabled, Exec, Returned1, BackedOff1, Follower3, Again2, Node.RecordReply;
    BacksOff(c0, 3, 1, 3, m, BackedOff1(2));
    var c1 := Exec(c0, Deliver(m));
    BacksOff(c1, 3, 1, 3, m, BackedOff1(1));
    var c2 := Exec(c1, Deliver(m));
    RunGoesOn(run, Deliver(m), c1);
    RunGoesOn(run + [c1], Deliver(m), c2);
    run := run + [c1] + [c2];
  }

  lemma SecondHelps() returns (run: seq<Cluster>)
    ensures IsRun(run)
    ensures
      var c := run[|run| - 1];
      && 1 in c.servers && c.servers[1] == At(BackedOff1(1), {2})
      && 3 in c.servers && c.servers[3].core == Follower3() && c.servers[3].dropped == [FIRST]
      && AppendReply(2, 1, 3, 3, AppendEntriesReply(3, true, 0)) in c.net
  {
    run := FirstBacksOff();
    var c0 := run[|run| - 1];
    ThirdSent();
    ThirdStored();
    hide IsRun, Enabled, Exec, OnAppend, CanSend, Returned1, BackedOff1, Follower3, Again2, Node.CanHandle,
      Node.HandleAppendEntries, Node.BuildAppendEntries;
    Sends(c0, 1, 2);
    var c1 := Exec(c0, Replicate(1, 2));
    AppendTaken(c1, 2, THIRD_MESSAGE);
    var c2 := OnAppend(c1, 2, THIRD_MESSAGE);
    RunGoesOn(run, Replicate(1, 2), c1);
    RunGoesOn(run + [c1], Deliver(Append(2, THIRD_MESSAGE)), c2);
    run := run + [c1] + [c2];
  }

  lemma FirstCommits() returns (run: seq<Cluster>)
    ensures IsRun(run)
    ensures
      var c := run[|run| - 1];
      && 1 in c.servers && c.servers[1] == At(Committed1(), {2})
      && 3 in c.servers && c.servers[3].core == Follower3() && c.servers[3].dropped == [FIRST]
  {
    run := SecondHelps();
    var c0, m := run[|run| - 1], AppendReply(2, 1, 3, 3, AppendEntriesReply(3, true, 0));
    ThirdCommitted();
    assert BackedOff1(1).role == Leader && At(BackedOff1(1), {2}).Term() == 3;
    hide IsRun, Enabled, Exec, BackedOff1, Committed1, Follower3, Node.AdvanceCommitIndex, Node.RecordReply;
    Counts(c0, 2, 1, 3, m, Committed1());
    var c1 := Exec(c0, Deliver(m));
    RunGoesOn(run, Deliver(m), c1);
    run := run + [c1];
  }

  // The end: the first node leads, has committed and has compacted; the third is behind.
  ghost predicate Ends(run: seq<Cluster>) {
    && IsRun(run)
    && var c := run[|run| - 1];
       && 1 in c.servers && c.servers[1].core == Compacted1() && c.servers[1].dropped == [FIRST, SECOND, THIRD]
       && 3 in c.servers && c.servers[3].core == Follower3() && c.servers[3].dropped == [FIRST]
  }

  lemma CompactingRun() returns (run: seq<Cluster>)
    ensures Ends(run)
  {
    run := FirstCommits();
    var c0 := run[|run| - 1];
    ThirdApplied();
    hide IsRun, Enabled, Exec, Committed1, Compacted1, Follower3, Applied, Node.WellFormed;
    Applies(c0, 1);
    var c1 := Exec(c0, ApplyCommitted(1));
    RunGoesOn(run, ApplyCommitted(1), c1);
    run := run + [c1];
  }

  // ---- what the compacted leader would send ----

  // The leader of that run has a message for the third node that is contiguous and does not
  // cover the commit index it carries.
  lemma UncoveredCommit() returns (run: seq<Cluster>)
    ensures IsRun(run) && 1 in run[|run| - 1].servers
    ensures
      var n := run[|run| - 1].servers[1].core;
      var args := n.BuildAppendEntries(3);
      && n.role == Leader && 3 in n.peers && n.NextFor(3) < n.BaseIndex()
      && Contiguous(args.entries, args.prevLogIndex + 1) && args.LastSent() < args.leaderCommit
  {
    run := CompactingRun();
    hide IsRun;
  }

  // If the third node received it, it would commit its own second entry, where the leader has
  // committed another: the message fails the condition under which sending is safe.
  lemma StaleCommit() returns (run: seq<Cluster>)
    ensures IsRun(run) && 1 in run[|run| - 1].servers && 3 in run[|run| - 1].servers
    ensures
      var s, f := run[|run| - 1].servers[1], run[|run| - 1].servers[3];
      var args := s.core.BuildAppendEntries(3);
      && s.core.role == Leader && 3 in s.core.peers && s.core.NextFor(3) < s.core.BaseIndex()
      && Contiguous(args.entries, args.prevLogIndex + 1) && f.core.CanHandle(args)
      && !CommitsShared(s, f, args) && !HandledSafely(s, f, args)
      && f.core.HandleAppendEntries(args).0.commitIndex == 2 <= s.core.commitIndex
      && |f.Log()| == 2 && f.Log()[1].term == 1 && |s.Log()| == 3 && s.Log()[1].term == 2
  {
    run := CompactingRun();
    var c := run[|run| - 1];
    StaleLogs(c.servers[1], c.servers[3]);
    StaleTaken();
    hide Compacted1, Follower3, CommitsShared, HandledSafely, Node.HandleAppendEntries, Node.CanHandle;
    SafeSendIff(run, |run| - 1, 1, 3);
  }

  lemma StaleTaken()
    ensures
      var args := Compacted1().BuildAppendEntries(3);
      && Contiguous(args.entries, args.prevLogIndex + 1)
      && Compacted1().role == Leader && 3 in Compacted1().peers
      && Compacted1().NextFor(3) < Compacted1().BaseIndex() && Compacted1().commitIndex == 3
      && Follower3().CanHandle(args) && Follower3().HandleAppendEntries(args).0.commitIndex == 2
  {
    var args := Compacted1().BuildAppendEntries(3);
    assert args == AppendEntriesArgs(3, 1, 0, 3, [], 3);
    assert Follower3().LastLogIndex() == 2 && Follower3().TermAt(0) == None && Follower3().WellFormed();
    EmptyHandled(Follower3(), args);
  }

  lemma StaleLogs(s: Server, f: Server)
    requires s.core == Compacted1() && s.dropped == [FIRST, SECOND, THIRD]
    requires f.core == Follower3() && f.dropped == [FIRST]
    ensures s.Log() == [FIRST, SECOND, THIRD] && f.Log() == [FIRST, STALE]
    ensures !CommitsShared(s, f, s.core.BuildAppendEntries(3))
  {
    assert s.Log() == [FIRST, SECOND, THIRD] + [] == [FIRST, SECOND, THIRD] && f.Log() == [FIRST] + [STALE];
    var args := s.core.BuildAppendEntries(3);
    assert args.prevLogIndex == 0 && f.core.LastLogIndex() == 2 && f.core.TermAt(0) == None;
  }

  // One proposal later the message has a gap.
  lemma CompactedGap() returns (run: seq<Cluster>)
    ensures IsRun(run) && 1 in run[|run| - 1].servers
    ensures
      var n := run[|run| - 1].servers[1].core;
      var args := n.BuildAppendEntries(3);
      && n.role == Leader && 3 in n.peers && n.NextFor(3) < n.BaseIndex()
      && !Contiguous(args.entries, args.prevLogIndex + 1)
  {
    var before := CompactingRun();
    var c := before[|before| - 1];
    Proposes(c, 1);
    CommitRule(Compacted1().AppendCommand(Noop).value);
    hide IsRun, Exec, Enabled, Node.AdvanceCommitIndex;
    run := before + [Exec(c, Propose(1, Noop))];
    RunGoesOn(before, Propose(1, Noop), Exec(c, Propose(1, Noop)));
    assert run[|run| - 1].servers[1].core.entries[0].index == 4;
  }
}
