/**
  A crash inside the truncation of a suffix. The program deletes the file of the segment the
  cut falls into before it writes its replacement, so records that were synced and were to
  be kept can be lost: exactly when is decided by how far the truncation got.
*/
module TornCut {
  import opened Types
  import opened Record
  import opened Recovery
  import opened SegmentView
  import opened WalLog

  // How far it got: trailing segments dropped down to `left`, the file of the cut segment
  // removed, or `n` bytes of its replacement written.
  datatype Stage = Dropping(left: nat) | Removed | Rewriting(n: nat)

  // What the cut keeps of the segment it falls into.
  function Survivors(vs: seq<SegView>, j: nat, keep: LogIndex): seq<Payload>
    requires j < |vs| && vs[j].base <= keep + 1 <= vs[j].End()
  {
    vs[j].records[..keep + 1 - vs[j].base]
  }

  // The disk of a synced log at that moment.
  ghost predicate CutDisk(crc: Checksum, vs: seq<SegView>, j: nat, keep: LogIndex, stage: Stage, files: Files)
    requires j < |vs| && vs[j].base <= keep + 1 <= vs[j].End()
  {
    match stage
    case Dropping(left) => j < left <= |vs| && OnDisk(crc, vs[..left], files, Frames(crc, vs[left - 1].records))
    case Removed => if j == 0 then files == [] else OnDisk(crc, vs[..j], files, Frames(crc, vs[j - 1].records))
    case Rewriting(n) =>
      var survivors := Survivors(vs, j, keep);
      && n <= |Frames(crc, survivors)|
      && OnDisk(crc, vs[..j] + [SegView(vs[j].base, survivors)], files, Frames(crc, survivors)[..n])
  }

  // Every record up to `keep` is still there, at its index.
  ghost predicate Keeps(vs: seq<SegView>, keep: LogIndex, vs': seq<SegView>)
    requires vs != [] && vs' != []
  {
    && vs'[0].base == vs[0].base <= keep + 1 && keep + 1 - vs[0].base <= |Flatten(vs)|
    && Flatten(vs)[..keep + 1 - vs[0].base] <= Flatten(vs')
  }

  // Nothing the cut keeps is missing from the disk.
  ghost predicate Whole(crc: Checksum, vs: seq<SegView>, j: nat, keep: LogIndex, stage: Stage)
    requires j < |vs| && vs[j].base <= keep + 1 <= vs[j].End()
  {
    match stage
    case Dropping(_) => true
    case Removed => Survivors(vs, j, keep) == [] && (j > 0 || vs[0].base == 1)
    case Rewriting(n) => n == |Frames(crc, Survivors(vs, j, keep))|
  }

  // Opening never refuses such a disk, and it keeps every record up to the cut if and only if
  // the truncation had not reached the cut segment, had nothing to keep of it, or was done.
  lemma {:induction false} TornCutKeepsIff(crc: Checksum, vs: seq<SegView>, keep: LogIndex, stage: Stage, files: Files)
    requires Linked(vs) && vs[0].base <= keep + 1 <= Last(vs).End()
    ensures var j := Straddled(vs, keep); vs[j].base <= keep + 1 <= vs[j].End()
    ensures
      var j := Straddled(vs, keep);
      CutDisk(crc, vs, j, keep, stage, files) ==>
        AllRecover(crc, files) && (Keeps(vs, keep, Recovered(crc, files)) <==> Whole(crc, vs, j, keep, stage))
  {
    StraddledHolds(vs, keep);
    hide Straddled, Linked, Flatten, Frames, OnDisk, AllRecover, Recovered, Keeps, Survivors;
    var j := Straddled(vs, keep);
    if CutDisk(crc, vs, j, keep, stage, files) {
      match stage
      case Dropping(left) => DroppingKeeps(crc, vs, j, keep, left, files);
      case Removed => RemovedKeeps(crc, vs, j, keep, files);
      case Rewriting(n) => RewritingKeeps(crc, vs, j, keep, n, files);
    }
  }

  lemma {:induction false} StraddledHolds(vs: seq<SegView>, keep: LogIndex)
    requires Linked(vs) && vs[0].base <= keep + 1 <= Last(vs).End()
    ensures var j := Straddled(vs, keep); vs[j].base <= keep + 1 <= vs[j].End()
    decreases |vs|
  {
    if |vs| > 1 && Last(vs).base > keep {
      var k := |vs| - 2;
      assert vs[k + 1].base == vs[k].End();
      StraddledHolds(vs[..k + 1], keep);
    }
  }

  // The first segments of a chain hold its first records.
  lemma FrontHolds(vs: seq<SegView>, left: nat)
    requires Linked(vs) && 0 < left <= |vs|
    ensures vs[..left][0].base == vs[0].base <= vs[left - 1].End()
    ensures vs[left - 1].End() - vs[0].base <= |Flatten(vs)|
    ensures Flatten(vs[..left]) == Flatten(vs)[..vs[left - 1].End() - vs[0].base]
  {
    FlattenLength(vs, left - 1);
    hide Flatten, Linked;
    FlattenSplit(vs, left - 1);
  }

  lemma {:induction false} DroppingKeeps(crc: Checksum, vs: seq<SegView>, j: nat, keep: LogIndex, left: nat,
                                         files: Files)
    requires Linked(vs) && j < left <= |vs| && vs[j].base <= keep + 1 <= vs[j].End()
    requires OnDisk(crc, vs[..left], files, Frames(crc, vs[left - 1].records))
    ensures AllRecover(crc, files) && Keeps(vs, keep, Recovered(crc, files))
  {
    ReopenSynced(crc, vs[..left], files);
    FrontHolds(vs, left);
    FlattenLength(vs, j);
    if j < left - 1 { BasesAscend(vs, j, left - 1); }
    hide Flatten, Frames, OnDisk, AllRecover, Recovered, Linked;
    PrefixOfPrefix(Flatten(vs), keep + 1 - vs[0].base, vs[left - 1].End() - vs[0].base);
  }

  lemma PrefixOfPrefix(rs: seq<Payload>, a: nat, b: nat)
    requires a <= b <= |rs|
    ensures rs[..a] <= rs[..b]
  {
  }

  lemma {:induction false} RemovedKeeps(crc: Checksum, vs: seq<SegView>, j: nat, keep: LogIndex, files: Files)
    requires Linked(vs) && j < |vs| && vs[j].base <= keep + 1 <= vs[j].End()
    requires if j == 0 then files == [] else OnDisk(crc, vs[..j], files, Frames(crc, vs[j - 1].records))
    ensures AllRecover(crc, files)
    ensures
      Keeps(vs, keep, Recovered(crc, files))
      <==> Survivors(vs, j, keep) == [] && (j > 0 || vs[0].base == 1)
  {
    CutKeeps(vs, j, keep);
    if j == 0 {
      FlattenOne(SegView(1, []));
      hide Flatten, Linked;
    } else {
      ReopenSynced(crc, vs[..j], files);
      FrontHolds(vs, j);
      assert vs[j - 1 + 1].base == vs[j - 1].End();
      hide Flatten, Frames, OnDisk, AllRecover, Recovered, Linked;
      var a, b := keep + 1 - vs[0].base, vs[j].base - vs[0].base;
      if a <= b { PrefixOfPrefix(Flatten(vs), a, b); }
    }
  }

  lemma {:induction false} RewritingKeeps(crc: Checksum, vs: seq<SegView>, j: nat, keep: LogIndex, n: nat,
                                          files: Files)
    requires Linked(vs) && j < |vs| && vs[j].base <= keep + 1 <= vs[j].End()
    requires
      var survivors := Survivors(vs, j, keep);
      && n <= |Frames(crc, survivors)|
      && OnDisk(crc, vs[..j] + [SegView(vs[j].base, survivors)], files, Frames(crc, survivors)[..n])
    ensures AllRecover(crc, files)
    ensures Keeps(vs, keep, Recovered(crc, files)) <==> n == |Frames(crc, Survivors(vs, j, keep))|
  {
    var survivors := Survivors(vs, j, keep);
    var k, cut := WholeRecords(crc, survivors, n), vs[..j] + [SegView(vs[j].base, survivors)];
    CutRecovers(crc, survivors, n);
    WholeRecordsAll(crc, survivors, n);
    hide Frames, OnDisk, AllRecover, Recovered, Recover, WholeRecords, Flatten, Linked;
    RecoveredFromDisk(crc, cut, files, Frames(crc, survivors)[..n]);
    assert cut[..|cut| - 1] == vs[..j] && survivors[..k] == vs[j].records[..k];
    CutOutcome(vs, j, keep, k);
    CutLength(vs, j, vs[j].records[..k]);
    CutStart(vs, j, vs[j].records[..k]);
  }

  lemma CutStart(vs: seq<SegView>, j: nat, kept: seq<Payload>)
    requires j < |vs|
    ensures (vs[..j] + [SegView(vs[j].base, kept)])[0].base == vs[0].base
  {
  }

  // One segment of two synced records, cut after the first: a crash after the removal brings
  // back an empty log.
  lemma TornCutLoses(crc: Checksum, a: Payload, b: Payload)
    ensures
      var vs := [SegView(1, [a, b])];
      && Linked(vs) && Straddled(vs, 1) == 0 && CutDisk(crc, vs, 0, 1, Removed, [])
      && AllRecover(crc, []) && Flatten(Recovered(crc, [])) == [] && !Keeps(vs, 1, Recovered(crc, []))
  {
    FlattenOne(SegView(1, [a, b]));
    FlattenOne(SegView(1, []));
  }
}
