/**
  One log segment: an append-only file behind a buffered writer. Appends buffer, `Sync`
  flushes, `Recover` scans a file left by a crash.
*/
module Segments {
  import opened Types
  import opened Record
  import opened Recovery

  // Forward iterator over the records that have reached the file.
  class SegmentIter {
    const crc: Checksum
    const reader: Reader
    var done: bool

    ghost predicate Valid()
      reads this, reader
    {
      reader.Valid()
    }

    constructor (crc: Checksum, file: seq<Byte>, interruptions: nat)
      ensures Valid() && fresh(reader) && this.crc == crc && reader.Rest() == file && !done
    {
      this.crc := crc;
      reader := new Reader(file, interruptions);
      done := false;
    }

    method Next() returns (item: Option<Result<Payload>>)
      requires Valid()
      modifies this`done, reader`pos, reader`interruptions
      ensures Valid()
      ensures old(done) ==> item == None && done && reader.pos == old(reader.pos)
      ensures !old(done) ==>
        var (r, n) := ReadFrame(crc, old(reader.Rest()));
        && reader.pos == old(reader.pos) + n
        && (r.Entry? ==> item == Some(Ok(r.payload)) && !done)
        && (r.Eof? ==> item == None && done)
        && (r.Truncated? || r.Corrupt? ==> item == Some(Err(WalError)) && done)
    {
      if done { return None; }
      var record := ReadRecord(reader, crc);
      match record
      case Entry(p) => return Some(Ok(p));
      case Eof => done := true; return None;
      case Truncated => done := true; return Some(Err(WalError));
      case Corrupt => done := true; return Some(Err(WalError));
    }
  }

  // Whether everything from the reader's position on is a clean run of records.
  method RestParsesCleanly(reader: Reader, crc: Checksum) returns (clean: bool)
    requires reader.Valid()
    modifies reader`pos, reader`interruptions
    ensures reader.Valid() && clean == ParsesCleanly(crc, old(reader.Rest()))
  {
    ghost var rest := reader.Rest();
    while true
      invariant reader.Valid() && ParsesCleanly(crc, reader.Rest()) == ParsesCleanly(crc, rest)
      decreases |reader.data| - reader.pos
    {
      ghost var here := reader.Rest();
      var record := ReadRecord(reader, crc);
      match record
      case Entry(_) => assert reader.Rest() == here[ReadFrame(crc, here).1..];
      case Eof => return true;
      case Truncated => return false;
      case Corrupt => return false;
    }
  }

  class Segment {
    const crc: Checksum
    const baseIndex: LogIndex  // index of the first record
    var writer: Writer
    var bytes: nat
    var count: nat
    ghost var records: seq<Payload>

    // File and buffer together hold exactly the records, and the counters agree.
    ghost predicate Valid()
      reads this
    {
      && writer.Contents() == Frames(crc, records)
      && bytes == |writer.Contents()|
      && count == |records|
    }

    // Nothing is waiting in the buffer.
    predicate Synced()
      reads this
    {
      writer.buffer == []
    }

    constructor (crc: Checksum, baseIndex: LogIndex)
      ensures Valid() && Synced() && records == []
      ensures this.crc == crc && this.baseIndex == baseIndex
    {
      this.crc := crc;
      this.baseIndex := baseIndex;
      writer := Writer([], []);
      bytes, count, records := 0, 0, [];
    }

    // A segment over a file known to hold the encoding of `records`.
    constructor Reopened(crc: Checksum, baseIndex: LogIndex, file: seq<Byte>, count: nat, ghost records: seq<Payload>)
      requires file == Frames(crc, records) && count == |records|
      ensures Valid() && Synced() && this.records == records && writer.file == file
      ensures this.crc == crc && this.baseIndex == baseIndex
    {
      this.crc := crc;
      this.baseIndex := baseIndex;
      this.writer := Writer(file, []);
      this.bytes, this.count, this.records := |file|, count, records;
    }

    // Append one record to the buffer; `spill` is how much of it the writer pushes out.
    method Append(payload: Payload, spill: nat)
      requires Valid()
      modifies this`writer, this`bytes, this`count, this`records
      ensures Valid() && records == old(records) + [payload]
      ensures old(writer.file) <= writer.file
    {
      var written;
      writer, written := WriteRecord(writer, crc, payload, spill);
      FramesConcat(crc, records, [payload]);
      assert Frames(crc, [payload]) == Frame(crc, payload);
      bytes := bytes + written;
      count := count + 1;
      records := records + [payload];
    }

    // Make every prior append durable.
    method Sync()
      requires Valid()
      modifies this`writer
      ensures Valid() && Synced() && writer.file == Frames(crc, records)
    {
      writer := writer.Flush();
    }

    // Iterate what has reached the file, through a handle of its own.
    method Iter(interruptions: nat) returns (it: SegmentIter)
      ensures fresh(it) && fresh(it.reader) && it.Valid() && !it.done
      ensures it.crc == crc && it.reader.Rest() == writer.file
    {
      it := new SegmentIter(crc, writer.file, interruptions);
    }
  }

  // Reopen the file a crash left behind: drop a torn tail, refuse interior corruption.
  method RecoverSegment(crc: Checksum, baseIndex: LogIndex, file: seq<Byte>, interruptions: nat)
    returns (r: Result<Segment>)
    ensures r.Err? ==> r.error == Corruption && Recover(crc, file).Err?
    ensures r.Ok? ==>
      && fresh(r.value) && r.value.Valid() && r.value.Synced()
      && r.value.crc == crc && r.value.baseIndex == baseIndex
      && Recover(crc, file) == Ok(r.value.records)
      && r.value.writer.file == file[..ScanAll(crc, file).good] == Frames(crc, r.value.records)
  {
    hide ScanAll, ReadFrame, Frame, Frames, ScansOn;
    var reader := new Reader(file, interruptions);
    var good: nat, count: nat := 0, 0;
    ghost var found: seq<Payload> := [];
    var scanning := true;
    ScanFromStart(crc, file);
    while scanning
      invariant fresh(reader) && reader.Valid() && reader.data == file
      invariant good <= |file| && count == |found| && file[..good] == Frames(crc, found)
      invariant scanning ==> reader.pos == good && ScansOn(crc, file, found, good)
      invariant !scanning ==> Recover(crc, file) == Ok(found) && ScanAll(crc, file).good == good
      decreases scanning, |file| - good
    {
      ghost var rest := reader.Rest();
      assert rest == file[good..];
      var record := ReadRecord(reader, crc);
      match record
      case Entry(p) =>
        FoundNext(crc, file, found, good);
        good, count, found := reader.pos, count + 1, found + [p];
      case Eof =>
        StopsHere(crc, file, found, good);
        scanning := false;
      case Truncated =>
        StopsHere(crc, file, found, good);
        scanning := false;
      case Corrupt =>
        StopsHere(crc, file, found, good);
        var pos := reader.pos;
        if pos < |file| {
          assert reader.Rest() == file[pos..];
          var clean := RestParsesCleanly(reader, crc);
          if clean { return Err(Corruption); }
        }
        scanning := false;
    }
    var seg := new Segment.Reopened(crc, baseIndex, file[..good], count, found);
    r := Ok(seg);
  }

  // The scan of the file is the records found so far and the scan of the rest.
  ghost predicate ScansOn(crc: Checksum, file: seq<Byte>, found: seq<Payload>, good: nat)
    requires good <= |file|
  {
    var s := ScanAll(crc, file[good..]);
    ScanAll(crc, file) == Scan(found + s.records, good + s.good, Shift(s.stop, good))
  }

  lemma ScanFromStart(crc: Checksum, file: seq<Byte>)
    ensures ScansOn(crc, file, [], 0) && file[..0] == Frames(crc, [])
  {
    assert file[0..] == file;
  }

  lemma FoundNext(crc: Checksum, file: seq<Byte>, found: seq<Payload>, good: nat)
    requires good <= |file| && file[..good] == Frames(crc, found) && ScansOn(crc, file, found, good)
    requires ReadFrame(crc, file[good..]).0.Entry?
    ensures
      var (r, n) := ReadFrame(crc, file[good..]);
      && file[..good + n] == Frames(crc, found + [r.payload])
      && ScansOn(crc, file, found + [r.payload], good + n)
  {
    hide ReadFrame, Frame;
    var (r, n) := ReadFrame(crc, file[good..]);
    ReadIsFrame(crc, file[good..]);
    FramesConcat(crc, found, [r.payload]);
    assert Frames(crc, [r.payload]) == Frame(crc, r.payload);
    assert file[..good + n] == file[..good] + file[good..][..n];
    assert file[good..][n..] == file[good + n..];
    var s := ScanAll(crc, file[good + n..]);
    assert found + ([r.payload] + s.records) == found + [r.payload] + s.records;
  }

  lemma StopsHere(crc: Checksum, file: seq<Byte>, found: seq<Payload>, good: nat)
    requires good <= |file| && ScansOn(crc, file, found, good)
    requires !ReadFrame(crc, file[good..]).0.Entry?
    ensures
      var (r, n) := ReadFrame(crc, file[good..]);
      ScanAll(crc, file) == Scan(found, good,
        if r.Eof? then AtEof else if r.Truncated? then AtTruncated else AtCorrupt(good + n))
  {
    hide ReadFrame;
    assert found + [] == found;
  }
}
