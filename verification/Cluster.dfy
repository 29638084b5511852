/**
  The cluster as a transition system. Servers run the handlers of `RaftNode`; the
  network is a growing set of messages, so any message may be lost, delayed, reordered
  or delivered again; a server may restart at any time.

  `History` and `Server.dropped` are auxiliary: they record what happened and no guard
  or handler reads them.
*/
module Cluster {
  import opened Types
  import opened RaftNode
  import opened StateMachine

  datatype Server = Server(
    core: Node,
    granted: set<NodeId>,   // peers that granted their vote in the current campaign
    store: StoreState,
    dropped: Entries)       // auxiliary: the entries compaction has removed
  {
    // The whole log, including what compaction removed.
    function Log(): Entries {
      dropped + core.entries
    }

    function Term(): Term {
      core.hard.currentTerm
    }
  }

  // Replies carry what the caller of the RPC knows about its own request.
  datatype Message =
    | VoteRequest(to: NodeId, vote: RequestVoteArgs)
    | VoteReply(from: NodeId, to: NodeId, requestTerm: Term, voteReply: RequestVoteReply)
    | Append(to: NodeId, append: AppendEntriesArgs)
    | AppendReply(from: NodeId, to: NodeId, requestTerm: Term, lastSent: LogIndex,
                  appendReply: AppendEntriesReply)

  // ---- auxiliary history ----

  datatype Ballot = Ballot(term: Term, node: NodeId)
  datatype Vote = Vote(candidate: NodeId, log: Entries)  // the voter's log when it voted
  datatype Election = Election(leader: NodeId, log: Entries, voters: set<NodeId>)
  datatype Ack = Ack(node: NodeId, term: Term, upTo: LogIndex)  // stored the leader's first `upTo` entries
  datatype Commit = Commit(term: Term, index: LogIndex, quorum: set<NodeId>)

  datatype History = History(
    campaigns: map<Ballot, Entries>,     // the candidate's log when it campaigned
    votes: map<Ballot, Vote>,
    elections: map<Term, Election>,
    leaderLog: map<Term, Entries>,       // the leader's log, as far as it got in its term
    acks: set<Ack>,
    commits: set<Commit>)

  datatype Cluster = Cluster(servers: map<NodeId, Server>, net: set<Message>, hist: History)
  {
    function Put(i: NodeId, s: Server): Cluster {
      this.(servers := servers[i := s])
    }

    function Send(ms: set<Message>): Cluster {
      this.(net := net + ms)
    }
  }

  // Storing a log up to `n` acknowledges every shorter prefix too.
  function AcksUpTo(i: NodeId, t: Term, n: LogIndex): set<Ack> {
    set k: nat | k <= n :: Ack(i, t, k)
  }

  // ---- initial state ----

  ghost predicate PeersOf(peers: seq<NodeId>, members: set<NodeId>, i: NodeId) {
    && (forall p :: p in peers <==> p in members && p != i)
    && forall a, b :: 0 <= a < b < |peers| ==> peers[a] != peers[b]
  }

  ghost predicate FreshServer(members: set<NodeId>, i: NodeId, s: Server) {
    && s.core == Node(i, s.core.peers, HardState(0, None), [], NO_SNAPSHOT, Follower, 0, 0, None, map[], map[])
    && PeersOf(s.core.peers, members, i)
    && s == Server(s.core, {}, Open(None, s.store.threshold), [])
  }

  ghost predicate Init(c: Cluster) {
    && (forall i :: i in c.servers ==> FreshServer(c.servers.Keys, i, c.servers[i]))
    && c.net == {}
    && c.hist == History(map[], map[], map[], map[], {}, {})
  }

  // ---- steps ----

  datatype Step =
    | Timeout(i: NodeId)
    | Deliver(m: Message)
    | Propose(i: NodeId, command: Command)
    | Replicate(i: NodeId, peer: NodeId)
    | ApplyCommitted(i: NodeId)
    | Restart(i: NodeId)
    | Crash(i: NodeId, args: AppendEntriesArgs, k: nat)  // restart in the middle of receiving `args`

  ghost predicate Enabled(c: Cluster, step: Step) {
    match step
    case Timeout(i) => i in c.servers
    case Deliver(m) => m in c.net && m.to in c.servers && (m.Append? ==> Acceptable(c.servers[m.to], m.append))
    case Propose(i, _) => i in c.servers && c.servers[i].core.role == Leader
    case Replicate(i, peer) =>
      i in c.servers && c.servers[i].core.role == Leader && peer in c.servers[i].core.peers
      && c.servers[i].core.NextFor(peer) >= c.servers[i].core.BaseIndex()
    case ApplyCommitted(i) => i in c.servers && c.servers[i].core.WellFormed()
    case Restart(i) => i in c.servers
    case Crash(i, args, k) =>
      i in c.servers && Append(i, args) in c.net && Acceptable(c.servers[i], args) && k <= |args.entries| + 1
  }

  // The step ends with a restart of `j`.
  predicate Reboots(step: Step, j: NodeId) {
    step == Restart(j) || (step.Crash? && step.i == j)
  }

  // What the append handler asks of its caller; `NeverBlocked` shows it always holds.
  ghost predicate Acceptable(s: Server, args: AppendEntriesArgs) {
    s.core.CanHandle(args) && Contiguous(args.entries, args.prevLogIndex + 1)
  }

  ghost function Exec(c: Cluster, step: Step): Cluster
    requires Enabled(c, step)
  {
    match step
    case Timeout(i) => Campaign(c, i)
    case Deliver(VoteRequest(to, args)) => OnVoteRequest(c, to, args)
    case Deliver(VoteReply(from, to, requestTerm, reply)) => OnVoteReply(c, from, to, requestTerm, reply)
    case Deliver(Append(to, args)) => OnAppend(c, to, args)
    case Deliver(AppendReply(from, to, requestTerm, lastSent, reply)) =>
      OnAppendReply(c, from, to, requestTerm, lastSent, reply)
    case Propose(i, command) => Advance(LeaderAppend(c, i, command), i)
    case Replicate(i, peer) =>
      c.Send({Append(peer, c.servers[i].core.BuildAppendEntries(peer))})
    case ApplyCommitted(i) => c.Put(i, Applied(c.servers[i]))
    case Restart(i) => c.Put(i, Restarted(c.servers[i]))
    case Crash(i, args, k) => c.Put(i, Restarted(Torn(c.servers[i], args, k)))
  }

  ghost function Campaign(c: Cluster, i: NodeId): Cluster
    requires i in c.servers
  {
    var s := c.servers[i];
    var (n, args) := s.core.BecomeCandidate();
    var ballot := Ballot(n.hard.currentTerm, i);
    c.Put(i, s.(core := n, granted := {}))
     .Send(set p | p in n.peers :: VoteRequest(p, args))
     .(hist := c.hist.(campaigns := c.hist.campaigns[ballot := s.Log()],
                       votes := c.hist.votes[ballot := Vote(i, s.Log())]))
  }

  ghost function OnVoteRequest(c: Cluster, i: NodeId, args: RequestVoteArgs): Cluster
    requires i in c.servers
  {
    var s := c.servers[i];
    var (n, reply) := s.core.HandleRequestVote(args);
    var ballot := Ballot(args.term, i);
    var h := if reply.voteGranted && ballot !in c.hist.votes
             then c.hist.(votes := c.hist.votes[ballot := Vote(args.candidateId, s.Log())])
             else c.hist;
    c.Put(i, s.(core := n))
     .Send({VoteReply(i, args.candidateId, args.term, reply)})
     .(hist := h)
  }

  ghost function OnVoteReply(c: Cluster, from: NodeId, i: NodeId, requestTerm: Term, reply: RequestVoteReply): Cluster
    requires i in c.servers
  {
    var s := c.servers[i];
    if reply.term > s.Term() then c.Put(i, s.(core := s.core.BecomeFollower(reply.term, None)))
    else if s.core.role != Candidate || s.Term() != requestTerm then c
    else if !reply.voteGranted then c
    else
      var counted := c.Put(i, s.(granted := s.granted + {from}));
      if 1 + |s.granted + {from}| >= s.core.Quorum()
      then Advance(LeaderAppend(Win(counted, i), i, Noop), i)
      else counted
  }

  ghost function Win(c: Cluster, i: NodeId): Cluster
    requires i in c.servers
  {
    var s := c.servers[i];
    c.Put(i, s.(core := s.core.BecomeLeader()))
     .(hist := c.hist.(
         elections := c.hist.elections[s.Term() := Election(i, s.Log(), s.granted + {i})],
         leaderLog := c.hist.leaderLog[s.Term() := s.Log()],
         acks := c.hist.acks + AcksUpTo(i, s.Term(), |s.Log()|)))
  }

  // The leader appends and syncs one command.
  ghost function LeaderAppend(c: Cluster, i: NodeId, command: Command): Cluster
    requires i in c.servers && c.servers[i].core.role == Leader
  {
    var s := c.servers[i].(core := c.servers[i].core.AppendCommand(command).value);
    c.Put(i, s)
     .(hist := c.hist.(
         leaderLog := c.hist.leaderLog[s.Term() := s.Log()],
         acks := c.hist.acks + AcksUpTo(i, s.Term(), |s.Log()|)))
  }

  // The nodes whose recorded match index has reached `index`.
  function Reached(n: Node, index: LogIndex): set<NodeId> {
    {n.id} + set p | p in n.peers && n.MatchOf(p) >= index
  }

  ghost function Advance(c: Cluster, i: NodeId): Cluster
    requires i in c.servers
  {
    var s := c.servers[i];
    var n := s.core.AdvanceCommitIndex();
    var h := if n.commitIndex > s.core.commitIndex
             then c.hist.(commits := c.hist.commits + {Commit(s.Term(), n.commitIndex, Reached(n, n.commitIndex))})
             else c.hist;
    c.Put(i, s.(core := n)).(hist := h)
  }

  ghost function OnAppend(c: Cluster, i: NodeId, args: AppendEntriesArgs): Cluster
    requires i in c.servers && Acceptable(c.servers[i], args)
  {
    var s := c.servers[i];
    var (n, reply) := s.core.HandleAppendEntries(args);
    var h := if reply.success then c.hist.(acks := c.hist.acks + AcksUpTo(i, args.term, args.LastSent())) else c.hist;
    c.Put(i, s.(core := n))
     .Send({AppendReply(i, args.leaderId, args.term, args.LastSent(), reply)})
     .(hist := h)
  }

  ghost function OnAppendReply(c: Cluster, from: NodeId, i: NodeId, requestTerm: Term, lastSent: LogIndex,
                               reply: AppendEntriesReply): Cluster
    requires i in c.servers
  {
    var s := c.servers[i];
    if reply.term > s.Term() then c.Put(i, s.(core := s.core.BecomeFollower(reply.term, None)))
    else if s.core.role != Leader || s.Term() != requestTerm then c
    else
      var recorded := c.Put(i, s.(core := s.core.RecordReply(from, lastSent, reply)));
      if reply.success then Advance(recorded, i) else recorded
  }

  // Take the committed batch, apply it, and snapshot and compact when the store asks.
  function Applied(s: Server): Server
    requires s.core.WellFormed()
  {
    var (n, batch) := s.core.TakeCommitted();
    var store := s.store.(table := ApplyAll(s.store.table, batch));
    if batch == [] then s
    else if !store.ShouldSnapshot() then s.(core := n, store := store)
    else
      var snapped := store.Snapshot(n.TermAt(store.table.lastApplied).GetOr(0));
      var meta := snapped.lastSnapshot;
      s.(core := n.Compact(meta), store := snapped,
         dropped := if |s.dropped| < meta.lastIncludedIndex <= |s.Log()|
                    then s.Log()[..meta.lastIncludedIndex] else s.dropped)
  }

  // What reached the disk of an AppendEntries that was cut off.
  function Torn(s: Server, args: AppendEntriesArgs, k: nat): Server
    requires Acceptable(s, args) && k <= |args.entries| + 1
  {
    s.(core := s.core.Interrupted(args, k))
  }

  // Reopen the store from disk and restore the core above its snapshot.
  function Restarted(s: Server): Server {
    var store := Open(s.store.disk, s.store.threshold);
    s.(core := s.core.Restart(store.lastSnapshot), granted := {}, store := store)
  }

  // ---- runs ----

  // `run` is a sequence of states, each obtained from the one before by a step.
  ghost predicate IsRun(run: seq<Cluster>) {
    && |run| > 0
    && Init(run[0])
    && forall k :: 0 <= k < |run| - 1 ==> Follows(run[k], run[k + 1])
  }

  ghost predicate Follows(c: Cluster, c': Cluster) {
    exists step :: Takes(c, step, c')
  }

  ghost predicate Takes(c: Cluster, step: Step, c': Cluster) {
    Enabled(c, step) && c' == Exec(c, step)
  }

  // The run ends in `c`.
  ghost predicate Reaches(run: seq<Cluster>, c: Cluster) {
    IsRun(run) && run[|run| - 1] == c
  }

  // Receiving entries, on the servers and the messages it leaves.
  lemma AppendTaken(c: Cluster, i: NodeId, args: AppendEntriesArgs)
    requires i in c.servers && Append(i, args) in c.net && Acceptable(c.servers[i], args)
    ensures Takes(c, Deliver(Append(i, args)), OnAppend(c, i, args))
    ensures
      var c', s := OnAppend(c, i, args), c.servers[i];
      && c.net <= c'.net
      && c'.servers == c.servers[i := s.(core := s.core.HandleAppendEntries(args).0)]
      && AppendReply(i, args.leaderId, args.term, args.LastSent(), s.core.HandleAppendEntries(args).1) in c'.net
  {
    hide Node.HandleAppendEntries;
  }

  // A run goes on with any step its last state allows.
  lemma RunGoesOn(run: seq<Cluster>, step: Step, c: Cluster)
    requires IsRun(run) && Takes(run[|run| - 1], step, c)
    ensures IsRun(run + [c])
  {
    hide Enabled, Exec;
    var run' := run + [c];
    forall k | 0 <= k < |run'| - 1 ensures Follows(run'[k], run'[k + 1]) {
      if k < |run| - 1 { assert run'[k] == run[k] && run'[k + 1] == run[k + 1]; }
    }
  }

  lemma ReachesOn(run: seq<Cluster>, c: Cluster, step: Step, c': Cluster)
    requires Reaches(run, c) && Takes(c, step, c')
    ensures Reaches(run + [c'], c')
  {
    hide IsRun, Takes;
    RunGoesOn(run, step, c');
  }
}
