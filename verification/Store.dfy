/**
  The state machine and the store as the program keeps them: a table updated in place, and
  snapshot files on disk.
*/
module Stores {
  import opened Types
  import opened StateMachine

  class MemTable {
    var data: KeyValues
    var lastApplied: LogIndex

    function Contents(): Table
      reads this
    {
      Table(data, lastApplied)
    }

    constructor (data: KeyValues, lastApplied: LogIndex)
      ensures Contents() == Table(data, lastApplied)
    {
      this.data, this.lastApplied := data, lastApplied;
    }

    method Apply(index: LogIndex, command: Command)
      modifies this
      ensures Contents() == StateMachine.Apply(old(Contents()), index, command)
    {
      if index <= lastApplied { return; }
      match command {
        case Put(key, value) => data := data[key := value];
        case Delete(key) => data := data - {key};
        case Noop =>
      }
      lastApplied := index;
    }
  }

  // Snapshot files by the index in their name.
  type Files = map<LogIndex, SnapshotFile>

  // The newest snapshot file, by index.
  ghost predicate IsNewest(files: Files, newest: Option<SnapshotFile>) {
    match newest
    case None => files == map[]
    case Some(file) => exists top :: top in files && files[top] == file && forall i :: i in files ==> i <= top
  }

  method LoadLatest(files: Files) returns (newest: Option<SnapshotFile>)
    ensures IsNewest(files, newest)
  {
    if files == map[] { return None; }
    var top :| top in files;
    var rest := files.Keys - {top};
    while rest != {}
      invariant top in files && rest <= files.Keys
      invariant forall i :: i in files && i !in rest ==> i <= top
      decreases |rest|
    {
      var i :| i in rest;
      if i > top { top := i; }
      rest := rest - {i};
    }
    newest := Some(files[top]);
  }

  // Write a snapshot file, then remove the others; a removal listed in `stuck` fails.
  method WriteSnapshot(files: Files, file: SnapshotFile, stuck: set<LogIndex>) returns (after: Files)
    ensures file.meta.lastIncludedIndex in after && after[file.meta.lastIncludedIndex] == file
    ensures after.Keys == {file.meta.lastIncludedIndex} + files.Keys * stuck
    ensures forall i :: i in after && i != file.meta.lastIncludedIndex ==> after[i] == files[i]
  {
    var index := file.meta.lastIncludedIndex;
    after := files[index := file];
    var found := after.Keys;
    while found != {}
      invariant index in after && after[index] == file
      invariant forall i :: i in after && i != index ==>
        i in files && after[i] == files[i] && (i in found || i in stuck)
      invariant forall i :: i in files && i in stuck ==> i in after
      decreases |found|
    {
      var i :| i in found;
      if i != index && i !in stuck { after := after - {i}; }
      found := found - {i};
    }
  }

  class Store {
    const threshold: nat
    const memtable: MemTable
    var lastSnapshot: SnapshotMeta
    var disk: Files

    // Every file is named after its index, none is newer than the last snapshot, and that
    // one is there.
    ghost predicate Valid()
      reads this, memtable
    {
      && lastSnapshot.lastIncludedIndex <= memtable.lastApplied
      && (forall i :: i in disk ==> disk[i].meta.lastIncludedIndex == i <= lastSnapshot.lastIncludedIndex)
      && (if disk == map[] then lastSnapshot == NO_SNAPSHOT
          else lastSnapshot.lastIncludedIndex in disk && disk[lastSnapshot.lastIncludedIndex].meta == lastSnapshot)
    }

    // The store as a value, with the snapshot a reopening would load.
    ghost function State(): StoreState
      requires Valid()
      reads this, memtable
    {
      StoreState(memtable.Contents(), threshold, lastSnapshot,
                 if disk == map[] then None else Some(disk[lastSnapshot.lastIncludedIndex]))
    }

    // Open the store on whatever snapshot files are there.
    constructor (files: Files, threshold: nat)
      ensures fresh(memtable) && disk == files && this.threshold == threshold
      ensures exists newest :: IsNewest(files, newest) && Loads(newest)
      ensures (forall i :: i in files ==> files[i].meta.lastIncludedIndex == i) ==>
        Valid() && exists newest :: IsNewest(files, newest) && State() == StateMachine.Open(newest, threshold)
    {
      var newest := LoadLatest(files);
      this.threshold := threshold;
      disk := files;
      match newest {
        case Some(file) =>
          lastSnapshot := file.meta;
          memtable := new MemTable(file.data, file.meta.lastIncludedIndex);
        case None =>
          lastSnapshot := NO_SNAPSHOT;
          memtable := new MemTable(map[], 0);
      }
      new;
      assert IsNewest(files, newest) && Loads(newest);
    }

    // Table and metadata are those of the file, whatever its name says, or of an empty store.
    ghost predicate Loads(newest: Option<SnapshotFile>)
      reads this, memtable
    {
      var loaded := StateMachine.Open(newest, threshold);
      memtable.Contents() == loaded.table && lastSnapshot == loaded.lastSnapshot
    }

    method Apply(index: LogIndex, command: Command)
      requires Valid()
      modifies memtable
      ensures Valid() && State() == old(State()).(table := StateMachine.Apply(old(State()).table, index, command))
    {
      memtable.Apply(index, command);
    }

    method ShouldSnapshot() returns (due: bool)
      requires Valid()
      ensures due == State().ShouldSnapshot()
      ensures due <==> memtable.lastApplied >= lastSnapshot.lastIncludedIndex + threshold
    {
      due := memtable.lastApplied - lastSnapshot.lastIncludedIndex >= threshold;
    }

    // Take a durable snapshot at the applied index.
    method Snapshot(term: Term, stuck: set<LogIndex>) returns (meta: SnapshotMeta)
      requires Valid()
      modifies this`disk, this`lastSnapshot
      ensures Valid() && State() == old(State()).Snapshot(term) && meta == lastSnapshot
      ensures disk.Keys == {meta.lastIncludedIndex} + old(disk).Keys * stuck
    {
      meta := SnapshotMeta(memtable.lastApplied, term);
      disk := WriteSnapshot(disk, SnapshotFile(meta, memtable.data), stuck);
      lastSnapshot := meta;
    }
  }

  // Crash at any moment and open again: the store is back at its last snapshot.
  method Reopen(store: Store) returns (again: Store)
    requires store.Valid()
    ensures fresh(again) && again.Valid() && again.lastSnapshot == store.lastSnapshot
    ensures again.State() == StateMachine.Open(store.State().disk, store.threshold)
  {
    again := new Store(store.disk, store.threshold);
  }
}
