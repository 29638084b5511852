/**
  A chain of segments behind one interface. However the records are spread over files, the
  log behaves like a plain sequence, `Contents()`, numbered from `firstIndex` up.
*/
module WalLog {
  import opened Types
  import opened Record
  import opened Recovery
  import opened Segments
  import opened SegmentView

  // Every record the iterator still holds, or its error.
  method Drain(it: SegmentIter) returns (r: Result<seq<Payload>>)
    requires it.Valid() && !it.done
    modifies it`done, it.reader`pos, it.reader`interruptions
    ensures var s := ScanAll(it.crc, old(it.reader.Rest())); r == if s.stop.AtEof? then Ok(s.records) else Err(WalError)
  {
    hide ScanAll, ReadFrame;
    ghost var rest := it.reader.Rest();
    var out: seq<Payload> := [];
    NothingMore(ScanAll(it.crc, rest).records);
    while true
      invariant it.Valid() && !it.done
      invariant var s, now := ScanAll(it.crc, rest), ScanAll(it.crc, it.reader.Rest());
        s.records == out + now.records && (s.stop.AtEof? <==> now.stop.AtEof?)
      decreases |it.reader.data| - it.reader.pos
    {
      ghost var here := it.reader.Rest();
      ScanOne(it.crc, here);
      var item := it.Next();
      assert it.reader.Rest() == here[ReadFrame(it.crc, here).1..];
      NothingMore(out);
      if item.None? { return Ok(out); }
      if item.value.Err? { return Err(item.value.error); }
      OneMore(out, item.value.value, ScanAll(it.crc, it.reader.Rest()).records);
      out := out + [item.value.value];
    }
  }

  lemma NothingMore(rs: seq<Payload>)
    ensures [] + rs == rs + [] == rs
  {
  }

  lemma OneMore(out: seq<Payload>, p: Payload, rest: seq<Payload>)
    ensures out + ([p] + rest) == out + [p] + rest
  {
  }

  // Read a segment back from its file: all of its records exactly when nothing is buffered.
  method ReadSegment(seg: Segment, interruptions: nat) returns (r: Result<seq<Payload>>)
    requires seg.Valid()
    ensures if seg.Synced() then r == Ok(seg.records) else r.Err? || |r.value| < |seg.records|
  {
    hide Frames, ScanAll;
    FileScan(seg.crc, seg.writer, seg.records);
    var it := seg.Iter(interruptions);
    r := Drain(it);
  }

  // What reading the first `k` segments has given: all of them when nothing of theirs was
  // buffered, and otherwise fewer records.
  ghost predicate ReadSoFar(vs: seq<SegView>, k: nat, whole: bool, out: seq<(LogIndex, Payload)>)
    requires k <= |vs|
  {
    if whole then out == NumberedAll(vs[..k]) else |out| < |NumberedAll(vs[..k])|
  }

  lemma NothingRead(vs: seq<SegView>)
    ensures ReadSoFar(vs, 0, true, [])
  {
    NumberedNothing();
    assert vs[..0] == [];
  }

  lemma ReadMore(vs: seq<SegView>, k: nat, whole: bool, out: seq<(LogIndex, Payload)>, synced: bool, got: seq<Payload>)
    requires k < |vs| && ReadSoFar(vs, k, whole, out)
    requires if synced then got == vs[k].records else |got| < |vs[k].records|
    ensures ReadSoFar(vs, k + 1, whole && synced, out + Numbered(vs[k].base, got))
  {
    NumberedSnoc(vs, k);
    hide NumberedAll;
  }

  lemma AllRead(vs: seq<SegView>, whole: bool, out: seq<(LogIndex, Payload)>)
    requires ReadSoFar(vs, |vs|, whole, out)
    ensures out == NumberedAll(vs) <==> whole
  {
    assert vs[..|vs|] == vs;
  }

  // At most `n` records; an error behind them is not looked at.
  method TakeUpTo(it: SegmentIter, n: nat) returns (r: Result<seq<Payload>>)
    requires it.Valid() && !it.done
    modifies it`done, it.reader`pos, it.reader`interruptions
    ensures var s := ScanAll(it.crc, old(it.reader.Rest()));
      r == if n <= |s.records| then Ok(s.records[..n]) else if s.stop.AtEof? then Ok(s.records) else Err(WalError)
  {
    hide ScanAll, ReadFrame;
    ghost var rest := it.reader.Rest();
    var out: seq<Payload> := [];
    NothingMore(ScanAll(it.crc, rest).records);
    while true
      invariant it.Valid() && !it.done && |out| <= n
      invariant var s, now := ScanAll(it.crc, rest), ScanAll(it.crc, it.reader.Rest());
        s.records == out + now.records && (s.stop.AtEof? <==> now.stop.AtEof?)
      decreases |it.reader.data| - it.reader.pos
    {
      ghost var here := it.reader.Rest();
      ScanOne(it.crc, here);
      var item := it.Next();
      assert it.reader.Rest() == here[ReadFrame(it.crc, here).1..];
      NothingMore(out);
      assert ScanAll(it.crc, rest).records[..|out|] == out;
      if item.None? || |out| == n { return Ok(out); }
      if item.value.Err? { return Err(item.value.error); }
      OneMore(out, item.value.value, ScanAll(it.crc, it.reader.Rest()).records);
      out := out + [item.value.value];
    }
  }

  class Log {
    const crc: Checksum
    const maxSegmentBytes: nat
    var segments: seq<Segment>  // never empty; the last one takes appends
    var firstIndex: LogIndex
    var lastIndex: LogIndex
    ghost var view: seq<SegView>

    // The segments are distinct and sound, and `view` shows what they hold.
    ghost predicate Shape()
      reads this`segments, this`view, segments
    {
      && |view| == |segments| > 0
      && (forall i :: 0 <= i < |segments| ==>
            && segments[i].Valid() && segments[i].crc == crc
            && view[i] == SegView(segments[i].baseIndex, segments[i].records))
      && (forall i, j :: 0 <= i < j < |segments| ==> segments[i] != segments[j])
    }

    ghost predicate Valid()
      reads this, segments
    {
      && Shape() && Linked(view)
      && firstIndex == view[0].base && lastIndex + 1 == Last(view).End()
    }

    // Nothing is waiting in any buffer.
    ghost predicate Synced()
      reads this`segments, segments
    {
      forall i :: 0 <= i < |segments| ==> segments[i].Synced()
    }

    ghost predicate SyncedUpTo(k: nat)
      reads this`segments, segments
      requires k <= |segments|
    {
      forall i :: 0 <= i < k ==> segments[i].Synced()
    }

    // The record at index k is Contents()[k - firstIndex].
    ghost function Contents(): seq<Payload>
      reads this`view
    {
      Flatten(view)
    }

    // Adopt recovered segments.
    constructor (crc: Checksum, maxSegmentBytes: nat, segments: seq<Segment>, ghost view: seq<SegView>)
      requires |view| == |segments| > 0 && segments[0].baseIndex >= 1 && segments[|segments| - 1].baseIndex >= 1
      requires forall i :: 0 <= i < |segments| ==>
        && segments[i].Valid() && segments[i].crc == crc
        && view[i] == SegView(segments[i].baseIndex, segments[i].records)
      requires forall i, j :: 0 <= i < j < |segments| ==> segments[i] != segments[j]
      ensures Shape() && (Linked(view) ==> Valid())
      ensures this.crc == crc && this.maxSegmentBytes == maxSegmentBytes
      ensures this.segments == segments && this.view == view
      ensures firstIndex == view[0].base && lastIndex + 1 == Last(view).End()
    {
      hide Frames, Linked, Flatten;
      this.crc := crc;
      this.maxSegmentBytes := maxSegmentBytes;
      this.segments := segments;
      this.view := view;
      firstIndex := segments[0].baseIndex;
      var last := segments[|segments| - 1];
      lastIndex := if last.count == 0 then last.baseIndex - 1 else last.baseIndex + last.count - 1;
    }

    // Start a fresh segment behind a non-empty one.
    method Rotate()
      requires Valid() && segments[|segments| - 1].count > 0
      modifies this`segments, this`view
      ensures Valid() && Contents() == old(Contents()) && fresh(segments[|segments| - 1])
      ensures segments == old(segments) + [segments[|segments| - 1]]
      ensures view == old(view) + [SegView(lastIndex + 1, [])]
    {
      hide Frames, Linked, Flatten;
      var base := lastIndex + 1;
      RotateKeeps(view);
      var seg := new Segment(crc, base);
      segments := segments + [seg];
      view := view + [SegView(base, [])];
    }

    // The active segment takes no more: it holds a record and has reached the limit.
    ghost predicate Full()
      reads this`view
      requires view != []
    {
      Last(view).records != [] && |Frames(crc, Last(view).records)| >= maxSegmentBytes
    }

    // Append a record, to a fresh segment if and only if the active one is full.
    method Append(payload: Payload, spill: nat) returns (index: LogIndex)
      requires Valid()
      modifies this`segments, this`lastIndex, this`view, segments
      ensures Valid() && forall i :: 0 <= i < |segments| ==> segments[i] in old(segments) || fresh(segments[i])
      ensures index == lastIndex == old(lastIndex) + 1 && firstIndex == old(firstIndex)
      ensures Contents() == old(Contents()) + [payload]
      ensures old(view) != []
      ensures view == if old(Full()) then old(view) + [SegView(index, [payload])] else AddRecord(old(view), payload)
    {
      ActiveFull();
      hide Shape, Linked, Flatten, Full;
      var active := segments[|segments| - 1];
      AddToFresh(view, lastIndex + 1, payload);
      if active.bytes >= maxSegmentBytes && active.count > 0 { Rotate(); }
      index := AppendActive(payload, spill);
    }

    // Append a record to the active segment.
    method AppendActive(payload: Payload, spill: nat) returns (index: LogIndex)
      requires Valid()
      modifies this`lastIndex, this`view, segments[|segments| - 1]
      ensures Valid() && index == lastIndex == old(lastIndex) + 1
      ensures Contents() == old(Contents()) + [payload] && old(view) != [] && view == AddRecord(old(view), payload)
    {
      hide Linked, Flatten, Segment.Valid;
      AddRecordKeeps(view, payload);
      segments[|segments| - 1].Append(payload, spill);
      view := AddRecord(view, payload);
      lastIndex := lastIndex + 1;
      index := lastIndex;
    }

    lemma ActiveFull()
      requires Shape()
      ensures
        var active := segments[|segments| - 1];
        view != [] && (Full() <==> active.bytes >= maxSegmentBytes && active.count > 0)
    {
    }

    // Flush every segment.
    method Sync()
      requires Valid()
      modifies segments
      ensures Valid() && Synced()
    {
      hide Linked, Flatten, Segment.Valid;
      var k := 0;
      while k < |segments|
        invariant k <= |segments| && Valid()
        invariant forall i :: 0 <= i < k ==> segments[i].Synced()
      {
        segments[k].Sync();
        k := k + 1;
      }
    }

    // Read every record in order with its index. The answer is the whole log exactly
    // when nothing is buffered.
    method ReadAll(interruptions: nat) returns (r: Result<seq<(LogIndex, Payload)>>)
      requires Shape()
      ensures r == Ok(NumberedAll(view)) <==> Synced()
    {
      SameCount();
      hide Shape, Segment.Valid, Segment.Synced, Synced, SyncedUpTo, NumberedAll, ReadSoFar;
      SyncedSoFar(0);
      var out: seq<(LogIndex, Payload)> := [];
      var k: nat := 0;
      NothingRead(view);
      while k < |segments|
        invariant k <= |segments| && Shape() && ReadSoFar(view, k, SyncedUpTo(k), out)
      {
        var more := ReadOn(k, out, interruptions);
        if more.Err? { return Err(more.error); }
        out := more.value;
        k := k + 1;
      }
      SyncedSoFar(k);
      AllRead(view, SyncedUpTo(k), out);
      r := Ok(out);
    }

    // Read segment `k` behind what the segments before it gave.
    method ReadOn(k: nat, out: seq<(LogIndex, Payload)>, interruptions: nat)
      returns (r: Result<seq<(LogIndex, Payload)>>)
      requires Shape() && k < |segments| && ReadSoFar(view, k, SyncedUpTo(k), out)
      ensures if r.Err? then !Synced() else ReadSoFar(view, k + 1, SyncedUpTo(k + 1), r.value)
    {
      ShapeAt(k);
      SyncedSoFar(k);
      hide Shape, Segment.Valid, Segment.Synced, Synced, SyncedUpTo, Numbered, NumberedAll, ReadSoFar;
      var seg := segments[k];
      var got := ReadSegment(seg, interruptions);
      if got.Err? { return Err(got.error); }
      ReadMore(view, k, SyncedUpTo(k), out, seg.Synced(), got.value);
      r := Ok(out + Numbered(seg.baseIndex, got.value));
    }

    lemma SyncedSoFar(k: nat)
      requires k <= |segments|
      ensures SyncedUpTo(0) && (k == |segments| ==> (SyncedUpTo(k) <==> Synced()))
      ensures k < |segments| ==> (SyncedUpTo(k + 1) <==> SyncedUpTo(k) && segments[k].Synced())
      ensures Synced() ==> SyncedUpTo(k) && (k < |segments| ==> segments[k].Synced())
    {
    }

    // For a linked log that is the contents, numbered from the first index.
    lemma WholeNumbered()
      requires Valid()
      ensures NumberedAll(view) == Numbered(firstIndex, Contents())
    {
      LinkedNumbered(view, |view|);
      assert view[..|view|] == view;
    }

    // Drop whole leading segments whose records all lie below `upTo`.
    method TruncatePrefix(upTo: LogIndex)
      requires Valid()
      modifies this`segments, this`firstIndex, this`view
      ensures Valid() && (old(Synced()) ==> Synced())
      ensures forall i :: 0 <= i < |segments| ==> segments[i] in old(segments)
      ensures lastIndex == old(lastIndex)
      ensures old(firstIndex) <= firstIndex <= Max(old(firstIndex), upTo)
      ensures firstIndex - old(firstIndex) <= |old(Contents())|
      ensures Contents() == old(Contents())[firstIndex - old(firstIndex)..]
      ensures view != [] && (|view| == 1 || view[0].End() > upTo)
    {
      hide Linked, Flatten, DropBelow, Shape, Segment.Valid;
      DropBelowKeeps(view, upTo);
      DropWholeSegments(upTo);
      FirstBase();
      firstIndex := segments[0].baseIndex;
    }

    // Delete leading segments while another one follows.
    method DropWholeSegments(upTo: LogIndex)
      requires Shape() && Linked(view)
      modifies this`segments, this`view
      ensures Shape() && view == old(DropBelow(view, upTo))
      ensures (old(Synced()) ==> Synced()) && forall i :: 0 <= i < |segments| ==> segments[i] in old(segments)
    {
      hide Linked, Shape, Segment.Valid;
      ghost var gone: nat := 0;
      while |segments| > 1
        invariant Shape() && Linked(view) && DropBelow(view, upTo) == old(DropBelow(view, upTo))
        invariant gone <= |old(segments)| && segments == old(segments)[gone..]
        decreases |segments|
      {
        var segLast := FirstSegmentLast();
        if segLast >= upTo { break; }
        DropFirst();
        gone := gone + 1;
      }
      assert forall i :: 0 <= i < |segments| ==> segments[i] == old(segments)[gone + i];
      SameCount();
    }

    // What a crash leaves of the log: every segment's file, without its buffer.
    function DiskFiles(): Files
      reads this`segments, segments
    {
      var all := segments;
      seq(|all|, i requires 0 <= i < |all| reads all => (all[i].baseIndex, all[i].writer.file))
    }

    lemma SyncedOnDisk()
      requires Valid() && Synced()
      ensures OnDisk(crc, view, DiskFiles(), Frames(crc, Last(view).records))
      ensures forall i :: 0 <= i < |DiskFiles()| ==> DiskFiles()[i].0 >= 1
    {
      hide Frames;
      forall i | 0 <= i < |segments|
        ensures DiskFiles()[i] == (view[i].base, Frames(crc, view[i].records)) && view[i].base >= 1
      {
        assert segments[i].Valid() && segments[i].Synced();
        assert segments[i].writer.Contents() == segments[i].writer.file;
        if i > 0 { BasesAscend(view, 0, i); }
      }
    }

    // The indices and the contents agree.
    lemma Spans()
      requires Valid()
      ensures 1 <= firstIndex && |Contents()| == lastIndex + 1 - firstIndex
    {
      WholeLength(view);
    }

    lemma FirstBase()
      requires Shape()
      ensures |segments| > 0 && |view| > 0 && segments[0].baseIndex == view[0].base
    {
    }

    lemma ShapeAt(k: nat)
      requires Shape() && k < |segments|
      ensures segments[k].Valid() && k < |view| && view[k] == SegView(segments[k].baseIndex, segments[k].records)
    {
    }

    lemma SameCount()
      requires Shape()
      ensures |view| == |segments| > 0
    {
    }

    // Delete the first of several segments.
    method DropFirst()
      requires Shape() && Linked(view) && |segments| > 1
      modifies this`segments, this`view
      ensures Shape() && Linked(view) && segments == old(segments)[1..] && view == old(view)[1..] && |old(view)| > 1
    {
      hide Segment.Valid;
      DropFirstKeeps(view);
      segments := segments[1..];
      view := view[1..];
    }

    // The index of the last record of the first of several segments.
    method FirstSegmentLast() returns (segLast: LogIndex)
      requires Shape() && Linked(view) && |segments| > 1
      ensures |view| > 1 && segLast + 1 == view[0].End()
    {
      FirstNotEmpty(view);
      segLast := segments[0].baseIndex + Max(segments[0].count, 1) - 1;
    }

    // What of a segment has reached its file.
    ghost function OnFile(j: nat): seq<Payload>
      reads this`segments, segments
      requires j < |segments|
    {
      ScanAll(segments[j].crc, segments[j].writer.file).records
    }

    // The file of the segment a cut falls into holds all the records the cut keeps.
    ghost predicate CutReadable(keepLast: LogIndex)
      reads this`segments, this`view, segments
      requires |segments| == |view| > 0
    {
      var j := Straddled(view, keepLast);
      keepLast + 1 - view[j].base <= |OnFile(j)|
    }

    // Drop every record above `keepLast`. The result is right exactly when the segment the cut
    // falls into can be read back that far; a log with nothing buffered always can.
    method TruncateSuffix(keepLast: LogIndex, interruptions: nat, spill: nat) returns (r: Result<()>)
      requires Valid()
      modifies this`segments, this`lastIndex, this`view
      ensures keepLast >= old(lastIndex) ==> r == Ok(()) && unchanged(this)
      ensures keepLast < old(lastIndex) && keepLast + 1 < firstIndex ==> r == Err(WalError) && unchanged(this)
      ensures firstIndex <= keepLast + 1 <= old(lastIndex) ==>
        && keepLast + 1 - firstIndex <= |old(Contents())|
        && (r == Ok(()) && Contents() == old(Contents())[..keepLast + 1 - firstIndex] <==> old(CutReadable(keepLast)))
        && (old(CutReadable(keepLast)) ==> Valid() && lastIndex == keepLast)
        && (old(Synced()) ==> old(CutReadable(keepLast)) && Synced())
      ensures forall i :: 0 <= i < |segments| ==> segments[i] in old(segments) || fresh(segments[i])
    {
      SameCount();
      hide Flatten, Shape, Linked, Segment.Valid;
      if keepLast >= lastIndex { return Ok(()); }
      if keepLast + 1 < firstIndex { return Err(WalError); }
      r := CutSuffix(keepLast, interruptions, spill);
      if r.Err? { return; }
      lastIndex := keepLast;
    }

    // The same from a state with nothing buffered, where nothing can go wrong.
    method TruncateSynced(keepLast: LogIndex, interruptions: nat, spill: nat) returns (r: Result<()>)
      requires Valid() && Synced() && firstIndex <= keepLast + 1 <= lastIndex
      modifies this`segments, this`lastIndex, this`view
      ensures r == Ok(()) && Valid() && Synced() && lastIndex == keepLast
      ensures keepLast + 1 - firstIndex <= |old(Contents())|
      ensures Contents() == old(Contents())[..keepLast + 1 - firstIndex]
      ensures forall i :: 0 <= i < |segments| ==> segments[i] in old(segments) || fresh(segments[i])
    {
      SameCount();
      hide Shape, Linked, Flatten, CutReadable, Synced;
      r := TruncateSuffix(keepLast, interruptions, spill);
    }

    // Delete whole trailing segments, then rewrite the one the cut falls into.
    method CutSuffix(keepLast: LogIndex, interruptions: nat, spill: nat) returns (r: Result<()>)
      requires Shape() && Linked(view) && view[0].base <= keepLast + 1 <= Last(view).End()
      modifies this`segments, this`view
      ensures r.Err? ==> r.error == WalError
      ensures keepLast + 1 - old(view)[0].base <= |old(Contents())|
      ensures r == Ok(()) && Contents() == old(Contents())[..keepLast + 1 - old(view)[0].base]
              <==> old(CutReadable(keepLast))
      ensures old(CutReadable(keepLast)) ==>
        Shape() && Linked(view) && view[0].base == old(view)[0].base && Last(view).End() == keepLast + 1
      ensures old(Synced()) ==> old(CutReadable(keepLast)) && Synced()
      ensures forall i :: 0 <= i < |segments| ==> segments[i] in old(segments) || fresh(segments[i])
    {
      hide Linked, Flatten, AboveFrom, Shape, Segment.Valid, ScanAll, Straddled;
      DropSegmentsAbove(keepLast);
      ghost var vs, j := old(view), |segments| - 1;
      CutSegment(vs, j + 1, keepLast);
      ghost var file := OnFile(j);
      assert file == old(OnFile(j)) && Last(view) == vs[j] && view[..|view| - 1] == vs[..j];
      r := RewriteLast(keepLast, interruptions, spill);
      CutOutcome(vs, j, keepLast, |file|);
    }

    // Rewrite the last segment, keeping only its records up to `keepLast`.
    method RewriteLast(keepLast: LogIndex, interruptions: nat, spill: nat) returns (r: Result<()>)
      requires Shape() && Last(view).base <= keepLast + 1 <= Last(view).End()
      modifies this`segments, this`view
      ensures r.Err? ==> r.error == WalError && unchanged(this)
      ensures |old(segments)| == |old(view)| > 0
      ensures
        var last, file := old(Last(view)), old(OnFile(|segments| - 1));
        && (r.Err? || r == Ok(())) && |file| <= |last.records| && (keepLast + 1 - last.base <= |file| ==> r.Ok?)
        && (old(Synced()) ==> file == last.records && Synced())
        && (r.Ok? ==>
              && Shape()
              && view == old(view)[..|old(view)| - 1]
                         + [SegView(last.base, last.records[..Min(keepLast + 1 - last.base, |file|)])])
      ensures forall i :: 0 <= i < |segments| ==> segments[i] in old(segments) || fresh(segments[i])
    {
      hide ScanAll, Segment.Valid;
      var seg := segments[|segments| - 1];
      var it := seg.Iter(interruptions);
      SegmentFileScan(seg);
      var survivors := TakeUpTo(it, keepLast + 1 - seg.baseIndex);
      if survivors.Err? { return Err(WalError); }
      ghost var file, n := OnFile(|segments| - 1), keepLast + 1 - seg.baseIndex;
      assert survivors.value == file[..Min(n, |file|)] == seg.records[..Min(n, |file|)];
      var cut := Rebuild(crc, seg.baseIndex, survivors.value, spill);
      segments := segments[..|segments| - 1] + [cut];
      view := view[..|view| - 1] + [SegView(cut.baseIndex, cut.records)];
      r := Ok(());
    }

    lemma SegmentFileScan(seg: Segment)
      requires seg.Valid()
      ensures ScanAll(seg.crc, seg.writer.file).records <= seg.records
      ensures seg.Synced() ==> ScanAll(seg.crc, seg.writer.file).records == seg.records
    {
      FileScan(seg.crc, seg.writer, seg.records);
    }

    // Delete trailing segments that begin past the cut.
    method DropSegmentsAbove(keepLast: LogIndex)
      requires Shape() && Linked(view)
      modifies this`segments, this`view
      ensures 1 <= |segments| <= |old(segments)| && Shape()
      ensures segments == old(segments)[..|segments|] && view == old(view)[..|segments|]
      ensures |old(view)| == |old(segments)|
      ensures AboveFrom(old(view), |segments|, keepLast)
      ensures |segments| == 1 || view[|segments| - 1].base <= keepLast
      ensures |segments| == Straddled(old(view), keepLast) + 1
    {
      hide Segment.Valid, Linked;
      while |segments| > 1
        invariant 1 <= |segments| <= |old(segments)| && Shape()
        invariant Straddled(view, keepLast) == Straddled(old(view), keepLast)
        invariant segments == old(segments)[..|segments|] && view == old(view)[..|segments|]
        invariant AboveFrom(old(view), |segments|, keepLast)
        decreases |segments|
      {
        if segments[|segments| - 1].baseIndex <= keepLast { break; }
        segments := segments[..|segments| - 1];
        view := view[..|view| - 1];
      }
    }
  }

  // A fresh, synced segment holding the given records.
  method Rebuild(crc: Checksum, base: LogIndex, survivors: seq<Payload>, spill: nat) returns (seg: Segment)
    ensures fresh(seg) && seg.Valid() && seg.Synced() && seg.records == survivors
    ensures seg.crc == crc && seg.baseIndex == base
  {
    seg := new Segment(crc, base);
    var k := 0;
    while k < |survivors|
      invariant k <= |survivors| && fresh(seg) && seg.Valid() && seg.records == survivors[..k]
      invariant seg.crc == crc && seg.baseIndex == base
    {
      seg.Append(survivors[k], spill);
      k := k + 1;
    }
    seg.Sync();
  }

  // ---- reopening ----

  // The segment files on disk, by base index.
  type Files = seq<(LogIndex, seq<Byte>)>

  ghost predicate AllRecover(crc: Checksum, files: Files) {
    forall i :: 0 <= i < |files| ==> Recover(crc, files[i].1).Ok?
  }

  ghost function Recovered(crc: Checksum, files: Files): (vs: seq<SegView>)
    requires AllRecover(crc, files)
    ensures vs != []
  {
    if files == [] then [SegView(1, [])]
    else seq(|files|, i requires 0 <= i < |files| => SegView(files[i].0, Recover(crc, files[i].1).value))
  }

  // Open the log: recover every segment in order, or start with an empty one.
  method Open(crc: Checksum, maxSegmentBytes: nat, files: Files, interruptions: nat) returns (r: Result<Log>)
    requires forall i :: 0 <= i < |files| ==> files[i].0 >= 1
    ensures r.Ok? <==> AllRecover(crc, files)
    ensures r.Err? ==> r.error == Corruption
    ensures r.Ok? ==>
      && fresh(r.value) && fresh(set s | s in r.value.segments) && r.value.Shape() && r.value.Synced()
      && r.value.crc == crc && r.value.maxSegmentBytes == maxSegmentBytes
      && r.value.view == Recovered(crc, files)
      && (Linked(r.value.view) ==> r.value.Valid())
  {
    hide Linked, Flatten, Recover, ScanAll, Frames, Segment.Valid;
    var segments: seq<Segment> := [];
    if files == [] {
      var seg := new Segment(crc, 1);
      segments := [seg];
    } else {
      var k := 0;
      while k < |files|
        invariant k == |segments| <= |files| && fresh(set s | s in segments)
        invariant forall i, j :: 0 <= i < j < k ==> segments[i] != segments[j]
        invariant forall i :: 0 <= i < k ==>
          && segments[i].Valid() && segments[i].Synced() && segments[i].crc == crc
          && segments[i].baseIndex == files[i].0 && Recover(crc, files[i].1) == Ok(segments[i].records)
      {
        var seg := RecoverSegment(crc, files[k].0, files[k].1, interruptions);
        if seg.Err? { return Err(seg.error); }
        segments := segments + [seg.value];
        k := k + 1;
      }
    }
    var log := new Log(crc, maxSegmentBytes, segments, Recovered(crc, files));
    r := Ok(log);
  }

  // The files of a log whose records are `vs`, except that the last file is `last`.
  ghost predicate OnDisk(crc: Checksum, vs: seq<SegView>, files: Files, last: seq<Byte>) {
    && |files| == |vs| > 0
    && (forall i :: 0 <= i < |vs| ==> files[i].0 == vs[i].base)
    && (forall i :: 0 <= i < |vs| - 1 ==> files[i].1 == Frames(crc, vs[i].records))
    && files[|vs| - 1].1 == last
  }

  lemma {:induction false} RecoveredFromDisk(crc: Checksum, vs: seq<SegView>, files: Files, last: seq<Byte>)
    requires OnDisk(crc, vs, files, last)
    ensures AllRecover(crc, files) <==> Recover(crc, last).Ok?
    ensures Recover(crc, last).Ok? ==>
      Recovered(crc, files) == vs[..|vs| - 1] + [SegView(Last(vs).base, Recover(crc, last).value)]
  {
    hide Recover;
    forall i | 0 <= i < |vs| - 1 ensures Recover(crc, files[i].1) == Ok(vs[i].records) {
      FramesRoundTrip(crc, vs[i].records);
    }
  }

  // Reopening a synced log gives the same log back.
  lemma {:induction false} ReopenSynced(crc: Checksum, vs: seq<SegView>, files: Files)
    requires vs != [] && OnDisk(crc, vs, files, Frames(crc, Last(vs).records))
    ensures AllRecover(crc, files) && Recovered(crc, files) == vs
  {
    hide Recover, Frames;
    FramesRoundTrip(crc, Last(vs).records);
    RecoveredFromDisk(crc, vs, files, Frames(crc, Last(vs).records));
  }

  // When the last file recovers to more records than it had, so does the log.
  lemma RecoveredExtends(crc: Checksum, vs: seq<SegView>, files: Files, last: seq<Byte>, more: seq<Payload>)
    requires vs != [] && OnDisk(crc, vs, files, last) && Recover(crc, last) == Ok(Last(vs).records + more)
    ensures AllRecover(crc, files) && Recovered(crc, files) == ExtendLast(vs, more)
  {
    hide Recover;
    RecoveredFromDisk(crc, vs, files, last);
  }

  // A crash that leaves arbitrary bytes behind the synced ones: opening either refuses
  // or keeps every synced record at its index.
  lemma {:induction false} ReopenWithTail(crc: Checksum, vs: seq<SegView>, files: Files, tail: seq<Byte>)
    requires Linked(vs) && OnDisk(crc, vs, files, Frames(crc, Last(vs).records) + tail)
    ensures AllRecover(crc, files) ==>
      var vs' := Recovered(crc, files);
      Linked(vs') && vs'[0].base == vs[0].base && Flatten(vs) <= Flatten(vs')
  {
    assert vs != [];
    hide Recover, Frames, ScanAll, Linked, Flatten, OnDisk, AllRecover, Recovered, ExtendLast;
    var last := Frames(crc, Last(vs).records) + tail;
    RecoveredFromDisk(crc, vs, files, last);
    SyncedSurvive(crc, Last(vs).records, tail);
    if Recover(crc, last).Ok? {
      var kept := Recover(crc, last).value;
      var more := kept[|Last(vs).records|..];
      assert Last(vs).records + more == kept;
      RecoveredExtends(crc, vs, files, last, more);
      ExtendLastKeeps(vs, more);
    }
  }

  lemma Behind(synced: seq<Payload>, kept: seq<Payload>, appended: seq<Payload>) returns (more: seq<Payload>)
    requires synced <= kept <= synced + appended
    ensures kept == synced + more && more <= appended
  {
    more := kept[|synced|..];
    assert more == (synced + appended)[..|kept|][|synced|..] == appended[..|more|];
  }

  // A crash in the middle of appending: opening never refuses, keeps every synced record
  // and, of the appended ones, exactly a prefix.
  lemma {:induction false} ReopenAfterTornAppend(crc: Checksum, vs: seq<SegView>, files: Files,
                                                 appended: seq<Payload>, n: nat)
    requires Linked(vs)
    requires |Frames(crc, Last(vs).records)| <= n <= |Frames(crc, Last(vs).records + appended)|
    requires OnDisk(crc, vs, files, Frames(crc, Last(vs).records + appended)[..n])
    ensures AllRecover(crc, files)
    ensures
      var vs' := Recovered(crc, files);
      Linked(vs') && vs'[0].base == vs[0].base && Flatten(vs) <= Flatten(vs') <= Flatten(vs) + appended
  {
    assert vs != [];
    hide Recover, Frames, ScanAll, Linked, Flatten, OnDisk, AllRecover, Recovered, ExtendLast;
    var synced := Last(vs).records;
    var last := Frames(crc, synced + appended)[..n];
    TornAppendRecovers(crc, synced, appended, n);
    var more := Behind(synced, Recover(crc, last).value, appended);
    RecoveredExtends(crc, vs, files, last, more);
    ExtendLastKeeps(vs, more);
  }

  // One more file is one more segment.
  lemma RecoveredMore(crc: Checksum, files: Files, file: (LogIndex, seq<Byte>))
    requires files != [] && AllRecover(crc, files) && Recover(crc, file.1).Ok?
    ensures AllRecover(crc, files + [file])
    ensures Recovered(crc, files + [file]) == Recovered(crc, files) + [SegView(file.0, Recover(crc, file.1).value)]
  {
    hide Recover;
  }

  // Behind the files of `vs`, whose last one was appended `first` to, a second segment's file
  // that `second` was written to; of these `kept` and `kept'` come back.
  ghost predicate RotationRecovers(crc: Checksum, vs: seq<SegView>, files: Files, first: seq<Payload>, file: seq<Byte>,
                                   kept: seq<Payload>, kept': seq<Payload>)
    requires vs != []
  {
    var base := Last(vs).End() + |first|;
    var vs' := ExtendLast(vs, kept) + [SegView(base, kept')];
    && AllRecover(crc, files + [(base, file)]) && Recovered(crc, files + [(base, file)]) == vs'
    && Linked(ExtendLast(vs, kept)) && (Linked(vs') <==> kept == first)
  }

  // A crash in the middle of appending that leaves a second segment behind: opening never
  // refuses and keeps a prefix of what went to each file, and the segments are linked if and
  // only if the first file is complete. The bytes on disk decide how much that is.
  lemma {:induction false} ReopenAfterTornRotation(crc: Checksum, vs: seq<SegView>, files: Files, first: seq<Payload>,
                                                   second: seq<Payload>, n: nat, m: nat)
    returns (kept: seq<Payload>, kept': seq<Payload>)
    requires Linked(vs) && Last(vs).records + first != []
    requires |Frames(crc, Last(vs).records)| <= n <= |Frames(crc, Last(vs).records + first)|
    requires m <= |Frames(crc, second)|
    requires OnDisk(crc, vs, files, Frames(crc, Last(vs).records + first)[..n])
    ensures kept <= first && kept' <= second
    ensures RotationRecovers(crc, vs, files, first, Frames(crc, second)[..m], kept, kept')
    ensures kept == first <==> n == |Frames(crc, Last(vs).records + first)|
    ensures kept' == [] <==> second == [] || m < |Frame(crc, second[0])|
  {
    assert vs != [];
    hide Recover, Frames, ScanAll, Flatten, OnDisk, AllRecover, Recovered, WholeRecords, Linked, RotationRecovers;
    var synced := Last(vs).records;
    var last := Frames(crc, synced + first)[..n];
    TornAppendRecovers(crc, synced, first, n);
    kept := Behind(synced, Recover(crc, last).value, first);
    assert synced + kept == synced + first <==> kept == first;
    CutRecovers(crc, second, m);
    WholeRecordsAll(crc, second, m);
    kept' := second[..WholeRecords(crc, second, m)];
    RecoveredExtends(crc, vs, files, last, kept);
    DiskNotEmpty(crc, vs, files, last);
    RotationLinked(vs, first, kept, kept');
    hide ExtendLast;
    RotationFiles(crc, vs, files, first, kept, Frames(crc, second)[..m], kept');
  }

  lemma {:induction false} RotationFiles(crc: Checksum, vs: seq<SegView>, files: Files, first: seq<Payload>,
                                         kept: seq<Payload>, file: seq<Byte>, kept': seq<Payload>)
    requires vs != [] && files != [] && Recover(crc, file) == Ok(kept')
    requires AllRecover(crc, files) && Recovered(crc, files) == ExtendLast(vs, kept)
    requires Linked(ExtendLast(vs, kept))
    requires Linked(ExtendLast(vs, kept) + [SegView(Last(vs).End() + |first|, kept')]) <==> kept == first
    ensures RotationRecovers(crc, vs, files, first, file, kept, kept')
  {
    hide Recover, AllRecover, Recovered, Linked, ExtendLast;
    RecoveredMore(crc, files, (Last(vs).End() + |first|, file));
  }

  lemma DiskNotEmpty(crc: Checksum, vs: seq<SegView>, files: Files, last: seq<Byte>)
    requires OnDisk(crc, vs, files, last)
    ensures files != []
  {
  }

  // What iterating a segment file sees: exactly the segment's records when nothing is
  // buffered, and otherwise an error or fewer.
  lemma FileScan(crc: Checksum, w: Writer, records: seq<Payload>)
    requires w.Contents() == Frames(crc, records)
    ensures
      var s := ScanAll(crc, w.file);
      && s.records <= records
      && (w.buffer == [] ==> s.stop.AtEof? && s.records == records)
      && (w.buffer != [] && s.stop.AtEof? ==> |s.records| < |records|)
  {
    hide ScanAll, Frame, Frames, WholeRecords;
    var n := |w.file|;
    assert w.file == Frames(crc, records)[..n];
    CutRecovers(crc, records, n);
    WholeRecordsFit(crc, records, n);
    if w.buffer == [] {
      assert w.file == Frames(crc, records);
      FramesRoundTrip(crc, records);
    } else {
      GoodIsFrames(crc, w.file);
      assert records[..|records|] == records;
    }
  }
}
