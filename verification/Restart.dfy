/**
  Starting a node from its disk, and what that means after a crash.
*/
module Restarting {
  import opened Types
  import opened Record
  import opened SegmentView
  import opened WalLog
  import opened Mirror
  import opened RaftNode
  import opened Splicing
  import opened RaftCores

  const INITIAL_HARD_STATE := HardState(0, None)

  // Decode the records above the snapshot.
  method LoadEntries(codec: Codec, snap: LogIndex, records: seq<(LogIndex, Payload)>) returns (entries: Option<Entries>)
    ensures entries == LoadedFrom(codec, records, snap)
  {
    var es: Entries := [];
    var k: nat := 0;
    while k < |records|
      invariant k <= |records| && LoadedFrom(codec, records[..k], snap) == Some(es)
    {
      assert records[..k + 1][..k] == records[..k];
      var (index, bytes) := records[k];
      if index > snap {
        var entry := codec.decode(bytes);
        if entry.None? {
          LoadFails(codec, records, snap, k + 1);
          return None;
        }
        es := es + [entry.value];
      }
      k := k + 1;
    }
    assert records[..k] == records;
    entries := Some(es);
  }

  lemma {:induction false} LoadFails(codec: Codec, records: seq<(LogIndex, Payload)>, snap: LogIndex, k: nat)
    requires k <= |records| && LoadedFrom(codec, records[..k], snap).None?
    ensures LoadedFrom(codec, records, snap).None?
    decreases |records| - k
  {
    if k == |records| {
      assert records[..k] == records;
    } else {
      assert records[..k + 1][..k] == records[..k];
      LoadFails(codec, records, snap, k + 1);
    }
  }

  // Rebuild a node from its hard state, its snapshot's metadata and its log, linked or not.
  method Restore(id: NodeId, peers: seq<NodeId>, codec: Codec, hardFile: Option<HardState>, snapshot: SnapshotMeta,
                 log: Log, interruptions: nat) returns (r: Result<RaftCore>)
    requires log.Shape() && log.Synced()
    ensures var es := LoadedFrom(codec, NumberedAll(log.view), snapshot.lastIncludedIndex);
      if es.None? then r == Err(EncodeError)
      else
        && r.Ok? && fresh(r.value) && r.value.log == log && r.value.codec == codec
        && r.value.hardFile == r.value.hard
        && r.value.State() == Started(id, peers, hardFile.GetOr(INITIAL_HARD_STATE), es.value, snapshot)
    ensures log.Valid() ==>
      LoadedFrom(codec, NumberedAll(log.view), snapshot.lastIncludedIndex)
      == Loaded(codec, log.firstIndex, log.Contents(), snapshot.lastIncludedIndex)
  {
    if log.Valid() {
      log.WholeNumbered();
    }
    hide Log.Shape, Log.Synced, Flatten, Loaded, LoadedFrom, NumberedAll;
    var records := log.ReadAll(interruptions);
    var entries := LoadEntries(codec, snapshot.lastIncludedIndex, records.value);
    if entries.None? { return Err(EncodeError); }
    var core := new RaftCore(id, peers, codec, hardFile.GetOr(INITIAL_HARD_STATE), log, entries.value, snapshot);
    r := Ok(core);
  }

  // What the log of a node holds above a snapshot at or above its own.
  lemma Survivors(core: RaftCore, meta: SnapshotMeta)
    requires core.Stored()
    requires meta == core.snapshot
      || core.snapshot.lastIncludedIndex < meta.lastIncludedIndex <= core.State().LastLogIndex()
    ensures var es := core.State().Restart(meta).entries;
      && Contiguous(es, meta.lastIncludedIndex + 1)
      && Mirrors(core.codec, core.log.firstIndex, core.log.Contents(), meta.lastIncludedIndex, es)
      && Loaded(core.codec, core.log.firstIndex, core.log.Contents(), meta.lastIncludedIndex) == Some(es)
  {
    hide Log.Valid, Flatten, Loaded;
    var snap, es := core.snapshot.lastIncludedIndex, core.State().Restart(meta).entries;
    core.Dense();
    assert es == core.entries[meta.lastIncludedIndex - snap..];
    MirrorCompact(core.codec, core.log.firstIndex, core.log.Contents(), snap, core.entries, meta.lastIncludedIndex);
    LoadedIffMirrors(core.codec, core.log.firstIndex, core.log.Contents(), meta.lastIncludedIndex, es);
  }

  lemma RestartForm(n: Node, meta: SnapshotMeta)
    requires meta == n.snapshot || n.snapshot.lastIncludedIndex < meta.lastIncludedIndex
    ensures n.Restart(meta) == Started(n.id, n.peers, n.hard, n.Restart(meta).entries, meta)
  {
  }

  // Kill a node between two operations and start it again from its disk, with its own
  // snapshot or one the store wrote since: hard state and log come back, the rest is reset.
  method Reboot(core: RaftCore, meta: SnapshotMeta, interruptions: nat) returns (r: Result<RaftCore>)
    requires core.Valid()
    requires meta == core.snapshot
      || core.snapshot.lastIncludedIndex < meta.lastIncludedIndex <= core.State().LastLogIndex()
    ensures r.Ok? && fresh(r.value) && r.value.Valid() && r.value.State() == core.State().Restart(meta)
  {
    hide RaftCore.Stored, Log.Valid, Log.Synced, Flatten, Loaded, Node.Restart, Contiguous, Mirrors;
    StoredLog(core);
    Survivors(core, meta);
    RestartForm(core.State(), meta);
    var log := ReopenLog(core.log, interruptions);
    r := Restore(core.id, core.peers, core.codec, Some(core.hardFile), meta, log, interruptions);
    r.value.Recoupled();
  }

  lemma StoredLog(core: RaftCore)
    requires core.Stored()
    ensures core.log.Valid()
  {
  }

  // Open the files a synced log leaves behind: the same log again.
  method ReopenLog(log: Log, interruptions: nat) returns (again: Log)
    requires log.Valid() && log.Synced()
    ensures fresh(again) && fresh(set s | s in again.segments) && again.Shape() && again.Valid() && again.Synced()
    ensures again.firstIndex == log.firstIndex && again.Contents() == log.Contents()
  {
    log.SyncedOnDisk();
    hide Log.Shape, Log.Synced, Flatten, OnDisk, AllRecover, Recovered;
    ReopenSynced(log.crc, log.view, log.DiskFiles());
    var r := Open(log.crc, log.maxSegmentBytes, log.DiskFiles(), interruptions);
    again := r.value;
  }

  // The log holds `entries`, all synced. Its last file was also to take the records of
  // `pending` and is cut somewhere in them, after `n` bytes.
  ghost predicate TornOnDisk(crc: Checksum, codec: Codec, snap: LogIndex, entries: Entries, pending: Entries,
                             vs: seq<SegView>, files: Files, n: nat)
  {
    && Linked(vs) && Mirrors(codec, vs[0].base, Flatten(vs), snap, entries)
    && (forall e :: e in pending ==> codec.Stores(e))
    && var records := Last(vs).records + Encoded(codec, pending);
       && |Frames(crc, Last(vs).records)| <= n <= |Frames(crc, records)|
       && OnDisk(crc, vs, files, Frames(crc, records)[..n])
  }

  // A restart from a linked chain of segments brings back `es` above the snapshot.
  ghost predicate BringsBack(codec: Codec, first: LogIndex, vs: seq<SegView>, snap: LogIndex, es: Entries) {
    && Linked(vs) && vs[0].base == first && Mirrors(codec, first, Flatten(vs), snap, es)
    && Loaded(codec, first, Flatten(vs), snap) == Some(es)
  }

  // Kill a node while it appends entries, before it syncs: nothing synced is lost, and of
  // the entries in flight exactly a prefix comes back. Nothing was acknowledged.
  lemma {:induction false} RestartAfterTornAppend(crc: Checksum, codec: Codec, vs: seq<SegView>, files: Files,
                               snap: LogIndex, entries: Entries, pending: Entries, n: nat) returns (j: nat)
    requires TornOnDisk(crc, codec, snap, entries, pending, vs, files, n)
    ensures AllRecover(crc, files) && j <= |pending| && vs != []
    ensures BringsBack(codec, vs[0].base, Recovered(crc, files), snap, entries + pending[..j])
  {
    hide Linked, Flatten, Frames, OnDisk, Mirrors, Loaded, LoadedFrom, Recovered, AllRecover, Encoded, BringsBack;
    LinkedNotEmpty(vs);
    ReopenAfterTornAppend(crc, vs, files, Encoded(codec, pending), n);
    j := |Flatten(Recovered(crc, files))| - |Flatten(vs)|;
    TornBringsBack(codec, vs, Recovered(crc, files), snap, entries, pending);
  }

  lemma LinkedNotEmpty(vs: seq<SegView>)
    requires Linked(vs)
    ensures vs != []
  {
  }

  lemma {:induction false} TornBringsBack(codec: Codec, vs: seq<SegView>, vs': seq<SegView>, snap: LogIndex,
                                          entries: Entries, pending: Entries)
    requires vs != [] && Mirrors(codec, vs[0].base, Flatten(vs), snap, entries)
    requires forall e :: e in pending ==> codec.Stores(e)
    requires Linked(vs') && vs'[0].base == vs[0].base
    requires Flatten(vs) <= Flatten(vs') <= Flatten(vs) + Encoded(codec, pending)
    ensures |Flatten(vs')| - |Flatten(vs)| <= |pending|
    ensures BringsBack(codec, vs[0].base, vs', snap, entries + pending[..|Flatten(vs')| - |Flatten(vs)|])
  {
    hide Linked, Flatten, Loaded, Encoded, Mirrors;
    TornMirrors(codec, vs[0].base, Flatten(vs), Flatten(vs'), snap, entries, pending);
    TornEntries(codec, vs[0].base, Flatten(vs), Flatten(vs'), snap, entries, pending);
  }

  // The disk of a node whose AppendEntries was cut off while its entries went to one segment:
  // nothing of them yet, or the conflicting tail is gone and the last file is cut somewhere in
  // the entries that replace it.
  ghost predicate CutOff(crc: Checksum, codec: Codec, n: Node, args: AppendEntriesArgs, truncated: bool,
                         vs: seq<SegView>, files: Files, p: nat)
  {
    var snap := n.snapshot.lastIncludedIndex;
    if truncated then
      && args.term >= n.hard.currentTerm && n.Accepts(args) && n.WellFormed() && n.Extends(args)
      && var c := Covered(n.entries, snap, args.entries);
         && c < |args.entries|
         && TornOnDisk(crc, codec, snap, TornSplice(n.entries, snap, args.Start(), args.entries, c + 1),
                       args.entries[c..], vs, files, p)
    else TornOnDisk(crc, codec, snap, n.entries, [], vs, files, p)
  }

  // Opening such a disk gives the entries of an AppendEntries interrupted at some point.
  lemma {:induction false} CutOffLoads(crc: Checksum, codec: Codec, n: Node, args: AppendEntriesArgs, truncated: bool,
                                       vs: seq<SegView>, files: Files, p: nat) returns (k: nat)
    requires n.CanHandle(args) && CutOff(crc, codec, n, args, truncated, vs, files, p)
    ensures k <= |args.entries| + 1 && vs != [] && AllRecover(crc, files)
    ensures
      var es, snap := n.Interrupted(args, k).entries, n.snapshot.lastIncludedIndex;
      && Contiguous(es, snap + 1)
      && BringsBack(codec, vs[0].base, Recovered(crc, files), snap, es)
  {
    var snap := n.snapshot.lastIncludedIndex;
    hide BringsBack, Linked, Flatten, Mirrors, Frames, OnDisk, Recovered, AllRecover, Covered, TornSplice, TornOnDisk,
      Contiguous, Node.Interrupted, Node.Accepts, Node.WellFormed, Node.Extends, Node.CanHandle;
    if truncated {
      Spliceable(n, args);
      var c := Covered(n.entries, snap, args.entries);
      var kept := TornSplice(n.entries, snap, args.Start(), args.entries, c + 1);
      var j := RestartAfterTornAppend(crc, codec, vs, files, snap, kept, args.entries[c..], p);
      k := c + 1 + j;
      InterruptedAfter(n, args, j);
    } else {
      var j := RestartAfterTornAppend(crc, codec, vs, files, snap, n.entries, [], p);
      k := 0;
      InterruptedBefore(n, args);
      assert n.entries + [][..j] == n.entries;
    }
  }

  lemma InterruptedBefore(n: Node, args: AppendEntriesArgs)
    requires n.CanHandle(args)
    ensures n.Interrupted(args, 0).entries == n.entries && Contiguous(n.entries, n.snapshot.lastIncludedIndex + 1)
  {
    hide Covered, TornSplice;
    if args.term >= n.hard.currentTerm && n.Accepts(args) {
      TornForm(n.entries, n.snapshot.lastIncludedIndex, args.Start(), args.entries, 0);
    }
  }

  lemma InterruptedAfter(n: Node, args: AppendEntriesArgs, j: nat)
    requires args.term >= n.hard.currentTerm && n.Accepts(args) && n.WellFormed() && n.Extends(args)
    requires
      var c := Covered(n.entries, n.snapshot.lastIncludedIndex, args.entries);
      c < |args.entries| && j <= |args.entries[c..]|
    ensures
      var snap, es := n.snapshot.lastIncludedIndex, args.entries;
      var c := Covered(n.entries, snap, es);
      var left := n.Interrupted(args, c + 1 + j).entries;
      && left == TornSplice(n.entries, snap, args.Start(), es, c + 1) + es[c..][..j]
      && Contiguous(left, snap + 1)
  {
    RecognisedAccepts(n, args);
    hide Covered, TornSplice, Contiguous, Node.LastLogIndex, Node.PrevMatches;
    Spliceable(n, args);
    var snap, es := n.snapshot.lastIncludedIndex, args.entries;
    var c := Covered(n.entries, snap, es);
    TornSpliceIsTornAppend(n.entries, snap, args.Start(), es, 0);
    TornSpliceIsTornAppend(n.entries, snap, args.Start(), es, j);
    assert es[c..][..0] == [];
  }

  lemma RecognisedAccepts(n: Node, args: AppendEntriesArgs)
    ensures n.Recognise(args).Accepts(args) == n.Accepts(args)
  {
  }

  lemma Spliceable(n: Node, args: AppendEntriesArgs)
    requires n.WellFormed() && n.Extends(args)
    ensures
      var snap := n.snapshot.lastIncludedIndex;
      && Contiguous(n.entries, snap + 1) && Contiguous(args.entries, args.Start() + 1)
      && args.Start() <= snap + |n.entries|
  {
  }

  // Start a node from such a disk: it is the node interrupted at some point, restarted.
  method RebootCutOff(id: NodeId, peers: seq<NodeId>, codec: Codec, crc: Checksum, maxSegmentBytes: nat, files: Files,
                      hardFile: HardState, meta: SnapshotMeta, interruptions: nat, ghost n: Node,
                      ghost args: AppendEntriesArgs, ghost truncated: bool, ghost vs: seq<SegView>, ghost p: nat)
    returns (r: Result<RaftCore>, ghost k: nat)
    requires n.CanHandle(args) && n.id == id && n.peers == peers && n.snapshot == meta
    requires hardFile == n.Interrupted(args, 0).hard && CutOff(crc, codec, n, args, truncated, vs, files, p)
    ensures k <= |args.entries| + 1 && r.Ok? && fresh(r.value) && r.value.Valid()
    ensures r.value.State() == n.Interrupted(args, k).Restart(meta)
  {
    hide RaftCore.Stored, Log.Valid, Log.Shape, Log.Synced, Linked, Flatten, Loaded, LoadedFrom, NumberedAll, Mirrors,
      Contiguous, Recovered, AllRecover, CutOff, Node.Interrupted, Node.Restart, Node.CanHandle;
    k := CutOffLoads(crc, codec, n, args, truncated, vs, files, p);
    CutOffFiles(crc, codec, n, args, truncated, vs, files, p);
    InterruptedForm(n, args, k);
    ghost var node := n.Interrupted(args, k);
    var found := Open(crc, maxSegmentBytes, files, interruptions);
    var log := found.value;
    FirstIs(log);
    r := Restore(id, peers, codec, Some(hardFile), meta, log, interruptions);
    r.value.Recoupled();
  }

  lemma InterruptedForm(n: Node, args: AppendEntriesArgs, k: nat)
    requires n.CanHandle(args) && k <= |args.entries| + 1
    ensures
      var m := n.Interrupted(args, k);
      m.Restart(n.snapshot) == Started(n.id, n.peers, n.Interrupted(args, 0).hard, m.entries, n.snapshot)
  {
    hide TornSplice;
  }

  lemma CutOffFiles(crc: Checksum, codec: Codec, n: Node, args: AppendEntriesArgs, truncated: bool,
                    vs: seq<SegView>, files: Files, p: nat)
    requires CutOff(crc, codec, n, args, truncated, vs, files, p)
    ensures forall i :: 0 <= i < |files| ==> files[i].0 >= 1
  {
    hide Linked, Mirrors, Frames, Flatten, Covered, TornSplice;
    assert Linked(vs) && |files| == |vs| && forall i :: 0 <= i < |vs| ==> files[i].0 == vs[i].base;
    forall i | 0 <= i < |files| ensures files[i].0 >= 1 {
      BasesPositive(vs, i);
    }
  }

  lemma {:induction false} BasesPositive(vs: seq<SegView>, i: nat)
    requires Linked(vs) && i < |vs|
    ensures vs[i].base >= 1
  {
    if i > 0 {
      BasesPositive(vs, i - 1);
      assert vs[i - 1 + 1].base == vs[i - 1].End();
    }
  }

  lemma FirstIs(log: Log)
    requires log.Valid()
    ensures log.firstIndex == log.view[0].base
  {
  }

  // The same when the entries in flight had begun a new segment, `first` going to the old one
  // and `second` to the new. A prefix of each comes back; together they are dense if and only
  // if the first file is complete or the second does not hold a whole record.
  lemma {:induction false} RestartAfterTornRotation(crc: Checksum, codec: Codec, vs: seq<SegView>, files: Files,
                                 snap: LogIndex, entries: Entries, first: Entries, second: Entries, n: nat, m: nat)
    returns (a: nat, b: nat)
    requires Linked(vs) && Mirrors(codec, vs[0].base, Flatten(vs), snap, entries)
    requires Contiguous(entries + first + second, snap + 1)
    requires forall e :: e in first + second ==> codec.Stores(e)
    requires
      var records := Last(vs).records + Encoded(codec, first);
      && records != [] && |Frames(crc, Last(vs).records)| <= n <= |Frames(crc, records)|
      && OnDisk(crc, vs, files, Frames(crc, records)[..n])
    requires m <= |Frames(crc, Encoded(codec, second))|
    ensures a <= |first| && b <= |second|
    ensures
      var all := files + [(Last(vs).End() + |first|, Frames(crc, Encoded(codec, second))[..m])];
      var loaded := entries + first[..a] + second[..b];
      && AllRecover(crc, all) && LoadedFrom(codec, NumberedAll(Recovered(crc, all)), snap) == Some(loaded)
      && (Contiguous(loaded, snap + 1) <==> a == |first| || b == 0)
    ensures a == |first| <==> n == |Frames(crc, Last(vs).records + Encoded(codec, first))|
    ensures b == 0 <==> second == [] || m < |Frame(crc, codec.Record(second[0]))|
  {
    hide Frame, Frames, OnDisk, AllRecover, Recovered, Loaded, LoadedFrom, NumberedAll, Flatten;
    var kept, kept' := ReopenAfterTornRotation(crc, vs, files, Encoded(codec, first), Encoded(codec, second), n, m);
    a, b := |kept|, |kept'|;
    assert a == |first| <==> kept == Encoded(codec, first);
    EncodedPrefix(codec, first, a);
    EncodedPrefix(codec, second, b);
    assert kept == Encoded(codec, first)[..a] && kept' == Encoded(codec, second)[..b];
    TornRotationLoads(codec, vs, snap, entries, first[..a], Last(vs).End() + |first|, second[..b]);
    DenseIff(entries, first, second, snap + 1, a, b);
  }

  // The least disk that comes back with a hole: of two entries nothing in the first file and
  // all in the second.
  lemma TornHole(crc: Checksum, codec: Codec, e: LogEntry, e': LogEntry)
    requires codec.Stores(e) && codec.Stores(e') && e.index == 1 && e'.index == 2
    ensures
      var front, second := [(1, Frames(crc, [codec.Record(e)])[..0])], Frames(crc, [codec.Record(e')]);
      && OnDisk(crc, [SegView(1, [])], front, Frames(crc, [codec.Record(e)])[..0])
      && AllRecover(crc, front + [(2, second)])
      && LoadedFrom(codec, NumberedAll(Recovered(crc, front + [(2, second)])), 0) == Some([e'])
      && !Contiguous([e'], 1)
  {
    var vs, front := [SegView(1, [])], [(1, Frames(crc, [codec.Record(e)])[..0])];
    FrameLengths(crc, codec.Record(e));
    FrameLengths(crc, codec.Record(e'));
    EmptySegment(crc, codec, front, Frames(crc, [codec.Record(e)])[..0]);
    EncodedOne(codec, e);
    EncodedOne(codec, e');
    hide Frame, Frames, OnDisk, AllRecover, Recovered, LoadedFrom, NumberedAll, Flatten, Encoded, Linked, Mirrors;
    var m := |Frames(crc, Encoded(codec, [e']))|;
    assert Last(vs).records + Encoded(codec, [e]) == [codec.Record(e)];
    var a, b := RestartAfterTornRotation(crc, codec, vs, front, 0, [], [e], [e'], 0, m);
    assert a == 0 && b == 1 && [] + [e][..a] + [e'][..b] == [e'];
    assert Frames(crc, [codec.Record(e')])[..m] == Frames(crc, [codec.Record(e')]);
  }

  lemma EmptySegment(crc: Checksum, codec: Codec, files: Files, last: seq<Byte>)
    requires files == [(1, last)]
    ensures
      var vs := [SegView(1, [])];
      Linked(vs) && Mirrors(codec, 1, Flatten(vs), 0, []) && Frames(crc, []) == [] && OnDisk(crc, vs, files, last)
  {
    FlattenOne(SegView(1, []));
  }

  lemma EncodedOne(codec: Codec, e: LogEntry)
    requires codec.Stores(e)
    ensures Encoded(codec, [e]) == [codec.Record(e)]
  {
  }

  lemma FrameLengths(crc: Checksum, p: Payload)
    ensures |Frames(crc, [p])| == |Frame(crc, p)| > 0
  {
  }

  lemma {:induction false} EncodedPrefix(codec: Codec, es: Entries, k: nat)
    requires (forall e :: e in es ==> codec.Stores(e)) && k <= |es|
    ensures forall e :: e in es[..k] ==> codec.Stores(e)
    ensures Encoded(codec, es)[..k] == Encoded(codec, es[..k])
  {
  }

  lemma DenseIff(entries: Entries, first: Entries, second: Entries, base: LogIndex, a: nat, b: nat)
    requires Contiguous(entries + first + second, base) && a <= |first| && b <= |second|
    ensures Contiguous(entries + first[..a] + second[..b], base) <==> a == |first| || b == 0
  {
    var all, loaded := entries + first + second, entries + first[..a] + second[..b];
    if b > 0 {
      assert loaded[|entries| + a] == second[0] == all[|entries| + |first|];
    }
    if a == |first| || b == 0 {
      forall k | 0 <= k < |loaded| ensures loaded[k].index == base + k {
        assert loaded[k] == all[k];
      }
    }
  }

  lemma {:induction false} TornRotationLoads(codec: Codec, vs: seq<SegView>, snap: LogIndex, entries: Entries,
                          first: Entries, base: LogIndex, second: Entries)
    requires Linked(vs) && Mirrors(codec, vs[0].base, Flatten(vs), snap, entries) && base >= Last(vs).End()
    requires forall e :: e in first ==> codec.Stores(e)
    requires forall e :: e in second ==> codec.Stores(e)
    requires Linked(ExtendLast(vs, Encoded(codec, first)))
    ensures
      var vs' := ExtendLast(vs, Encoded(codec, first)) + [SegView(base, Encoded(codec, second))];
      LoadedFrom(codec, NumberedAll(vs'), snap) == Some(entries + first + second)
  {
    hide Loaded, LoadedFrom, NumberedAll, Flatten, Linked, Mirrors, ExtendLast, Numbered, Encoded;
    LinkedNotEmpty(vs);
    var front := ExtendLast(vs, Encoded(codec, first));
    var v := SegView(base, Encoded(codec, second));
    WholeLength(vs);
    MirrorEnds(codec, vs[0].base, Flatten(vs), snap, entries);
    FrontLoads(codec, vs, snap, entries, first);
    NumberedLast(front, v);
    LoadedMore(codec, NumberedAll(front), base, second, snap, entries + first);
  }

  lemma {:induction false} FrontLoads(codec: Codec, vs: seq<SegView>, snap: LogIndex, entries: Entries, first: Entries)
    requires Linked(vs) && Mirrors(codec, vs[0].base, Flatten(vs), snap, entries)
    requires forall e :: e in first ==> codec.Stores(e)
    ensures LoadedFrom(codec, NumberedAll(ExtendLast(vs, Encoded(codec, first))), snap) == Some(entries + first)
  {
    hide LoadedFrom, NumberedAll, Flatten, Linked, Mirrors, ExtendLast, Numbered;
    LinkedNotEmpty(vs);
    var front, rs := ExtendLast(vs, Encoded(codec, first)), Flatten(vs) + Encoded(codec, first);
    ExtendLastKeeps(vs, Encoded(codec, first));
    LinkedNumbered(front, |front|);
    assert front[..|front|] == front;
    TornEntries(codec, vs[0].base, Flatten(vs), rs, snap, entries, first);
    assert first[..|first|] == first;
  }

  lemma MirrorEnds(codec: Codec, first: LogIndex, rs: seq<Payload>, snap: LogIndex, entries: Entries)
    requires Mirrors(codec, first, rs, snap, entries)
    ensures first <= snap + 1 <= first + |rs|
  {
  }
}
