/**
  Values shared by the write-ahead log, the Raft core and the store: identifiers,
  log entries, durable metadata and the four RPC payloads.

  Terms and indices are `u64` in the program and natural numbers here.
*/
module Types {

  type Byte = b: int | 0 <= b < 256

  type NodeId = nat
  type Term = nat
  type LogIndex = nat  // 1-based position in the log

  datatype Option<+T> = None | Some(value: T) {
    function GetOr(default: T): T {
      if Some? then value else default
    }
  }

  datatype Result<+T> = Ok(value: T) | Err(error: Error)

  datatype Error = EncodeError | Corruption | WalError | RaftError

  datatype Command =
    | Put(key: seq<Byte>, value: seq<Byte>)
    | Delete(key: seq<Byte>)
    | Noop

  datatype LogEntry = LogEntry(term: Term, index: LogIndex, command: Command)

  type Entries = seq<LogEntry>

  datatype Role = Follower | Candidate | Leader

  datatype HardState = HardState(currentTerm: Term, votedFor: Option<NodeId>)

  datatype SnapshotMeta = SnapshotMeta(lastIncludedIndex: LogIndex, lastIncludedTerm: Term)

  datatype RequestVoteArgs = RequestVoteArgs(
    term: Term, candidateId: NodeId, lastLogIndex: LogIndex, lastLogTerm: Term)

  datatype RequestVoteReply = RequestVoteReply(term: Term, voteGranted: bool)

  datatype AppendEntriesArgs = AppendEntriesArgs(
    term: Term, leaderId: NodeId, prevLogIndex: LogIndex, prevLogTerm: Term,
    entries: seq<LogEntry>, leaderCommit: LogIndex)
  {
    // The highest index the receiver is told to store.
    function LastSent(): LogIndex {
      prevLogIndex + |entries|
    }

    // The index in front of the entries: the check, unless the sender left a gap behind it.
    function Start(): LogIndex {
      if entries == [] then prevLogIndex else Pred(entries[0].index)
    }
  }

  datatype AppendEntriesReply = AppendEntriesReply(
    term: Term, success: bool, conflictIndex: LogIndex)

  function Min(a: nat, b: nat): nat {
    if a <= b then a else b
  }

  function Max(a: nat, b: nat): nat {
    if a <= b then b else a
  }

  // `x.saturating_sub(1)` on an unsigned integer.
  function Pred(x: nat): nat {
    if x == 0 then 0 else x - 1
  }

  // Entries carry consecutive indices starting at `first`.
  ghost predicate Contiguous(es: seq<LogEntry>, first: LogIndex) {
    forall k :: 0 <= k < |es| ==> es[k].index == first + k
  }

  // Entries that follow the check directly start there.
  lemma StartsAtCheck(args: AppendEntriesArgs)
    requires Contiguous(args.entries, args.prevLogIndex + 1)
    ensures args.Start() == args.prevLogIndex
  {
  }
}
