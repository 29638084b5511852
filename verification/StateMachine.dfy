/**
  The replicated state machine as a value: commands folded into a map, the snapshot
  policy, and what a snapshot followed by replay rebuilds.
*/
module StateMachine {
  import opened Types

  type KeyValues = map<seq<Byte>, seq<Byte>>

  datatype Table = Table(data: KeyValues, lastApplied: LogIndex)

  function Execute(data: KeyValues, command: Command): KeyValues {
    match command
    case Put(key, value) => data[key := value]
    case Delete(key) => data - {key}
    case Noop => data
  }

  // Apply one command; an index already applied changes nothing.
  function Apply(t: Table, index: LogIndex, command: Command): Table {
    if index <= t.lastApplied then t else Table(Execute(t.data, command), index)
  }

  function ApplyAll(t: Table, es: Entries): Table
    decreases |es|
  {
    if es == [] then t
    else ApplyAll(Apply(t, es[0].index, es[0].command), es[1..])
  }

  // ---- reference: what a log means ----

  predicate Touches(command: Command, key: seq<Byte>) {
    match command
    case Put(k, _) => k == key
    case Delete(k) => k == key
    case Noop => false
  }

  function Fold(log: Entries): KeyValues {
    if log == [] then map[] else Execute(Fold(log[..|log| - 1]), log[|log| - 1].command)
  }

  // Entry `i` is the last one to touch `key`.
  ghost predicate LastTouch(log: Entries, key: seq<Byte>, i: nat) {
    && i < |log|
    && Touches(log[i].command, key)
    && forall j :: i < j < |log| ==> !Touches(log[j].command, key)
  }

  // A key is bound to `value` exactly when its last touch put that value there.
  lemma {:induction false} FoldIsLastWrite(log: Entries, key: seq<Byte>, value: seq<Byte>)
    ensures (key in Fold(log) && Fold(log)[key] == value)
       <==> (exists i: nat :: LastTouch(log, key, i) && log[i].command == Put(key, value))
  {
    if log != [] {
      var front, last := log[..|log| - 1], |log| - 1;
      FoldIsLastWrite(front, key, value);
      if Touches(log[last].command, key) {
        assert LastTouch(log, key, last);
        assert forall i: nat :: LastTouch(log, key, i) ==> i == last;
      } else {
        assert forall i: nat :: LastTouch(log, key, i) <==> LastTouch(front, key, i);
      }
    }
  }

  // A table at `k` that holds the fold of the first `k` entries, fed everything from
  // position `j <= k` on, ends at the fold of the whole log: replay overlaps harmlessly.
  lemma {:induction false} ReplayCatchesUp(log: Entries, k: nat, j: nat)
    requires Contiguous(log, 1) && j <= k <= |log|
    ensures ApplyAll(Table(Fold(log[..k]), k), log[j..]) == Table(Fold(log), |log|)
    decreases |log| - j
  {
    if j == |log| {
      assert log[..k] == log;
    } else {
      assert log[j..][1..] == log[j + 1..];
      if j < k {
        ReplayCatchesUp(log, k, j + 1);
      } else {
        assert log[..k + 1][..k] == log[..k];
        ReplayCatchesUp(log, k + 1, j + 1);
      }
    }
  }

  lemma {:induction false} ApplyAllConcat(t: Table, a: Entries, b: Entries)
    ensures ApplyAll(t, a + b) == ApplyAll(ApplyAll(t, a), b)
    decreases |a|
  {
    if a == [] {
      assert a + b == b;
    } else {
      assert (a + b)[1..] == a[1..] + b;
      ApplyAllConcat(Apply(t, a[0].index, a[0].command), a[1..], b);
    }
  }

  // ---- the store: a table plus its snapshots ----

  datatype SnapshotFile = SnapshotFile(meta: SnapshotMeta, data: KeyValues)

  const NO_SNAPSHOT := SnapshotMeta(0, 0)

  datatype StoreState = StoreState(
    table: Table,
    threshold: nat,
    lastSnapshot: SnapshotMeta,
    disk: Option<SnapshotFile>)  // the newest snapshot file
  {
    predicate ShouldSnapshot() {
      (if table.lastApplied < lastSnapshot.lastIncludedIndex then 0
       else table.lastApplied - lastSnapshot.lastIncludedIndex) >= threshold
    }

    function Snapshot(term: Term): StoreState {
      var meta := SnapshotMeta(table.lastApplied, term);
      this.(lastSnapshot := meta, disk := Some(SnapshotFile(meta, table.data)))
    }
  }

  // Open the store: load the newest snapshot, or start empty.
  function Open(disk: Option<SnapshotFile>, threshold: nat): StoreState {
    match disk
    case Some(file) => StoreState(Table(file.data, file.meta.lastIncludedIndex), threshold, file.meta, disk)
    case None => StoreState(Table(map[], 0), threshold, NO_SNAPSHOT, disk)
  }
}
