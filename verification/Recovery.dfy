/**
  What recovery makes of the bytes of a segment file: the records it keeps, the offset
  it truncates to, and when it refuses the file instead.
*/
module Recovery {
  import opened Types
  import opened Record

  // Where a scan stops; `after` is the reader's position behind a corrupt frame.
  datatype Stop = AtEof | AtTruncated | AtCorrupt(after: nat)

  datatype Scan = Scan(records: seq<Payload>, good: nat, stop: Stop)

  function Shift(stop: Stop, n: nat): Stop {
    if stop.AtCorrupt? then AtCorrupt(stop.after + n) else stop
  }

  // Read records until one cannot be read.
  function ScanAll(crc: Checksum, bs: seq<Byte>): (s: Scan)
    ensures s.good <= |bs| && (s.stop.AtCorrupt? ==> s.good < s.stop.after <= |bs|)
    ensures s.stop.AtEof? ==> s.good == |bs|
    decreases |bs|
  {
    var (r, n) := ReadFrame(crc, bs);
    match r
    case Entry(p) =>
      var rest := ScanAll(crc, bs[n..]);
      Scan([p] + rest.records, n + rest.good, Shift(rest.stop, n))
    case Eof => Scan([], 0, AtEof)
    case Truncated => Scan([], 0, AtTruncated)
    case Corrupt => Scan([], 0, AtCorrupt(n))
  }

  // One step of the scan.
  lemma ScanOne(crc: Checksum, bs: seq<Byte>)
    ensures
      var (r, n) := ReadFrame(crc, bs);
      var s, rest := ScanAll(crc, bs), ScanAll(crc, bs[n..]);
      if r.Entry? then s.records == [r.payload] + rest.records && (s.stop.AtEof? <==> rest.stop.AtEof?)
      else s.records == [] && (s.stop.AtEof? <==> r.Eof?)
  {
    hide ReadFrame;
  }

  predicate ParsesCleanly(crc: Checksum, bs: seq<Byte>) {
    ScanAll(crc, bs).stop.AtEof?
  }

  // The records recovery keeps, or its refusal.
  function Recover(crc: Checksum, bs: seq<Byte>): Result<seq<Payload>> {
    var s := ScanAll(crc, bs);
    if s.stop.AtCorrupt? && s.stop.after < |bs| && ParsesCleanly(crc, bs[s.stop.after..])
    then Err(Corruption)
    else Ok(s.records)
  }

  // ---- scanning inverts framing ----

  // The good part of the file is exactly the encoding of the records found.
  lemma {:induction false} GoodIsFrames(crc: Checksum, bs: seq<Byte>)
    ensures bs[..ScanAll(crc, bs).good] == Frames(crc, ScanAll(crc, bs).records)
    decreases |bs|
  {
    hide ReadFrame, Frame;
    var (r, n) := ReadFrame(crc, bs);
    if r.Entry? {
      ReadIsFrame(crc, bs);
      GoodIsFrames(crc, bs[n..]);
      var rest := ScanAll(crc, bs[n..]);
      assert bs[..n + rest.good] == bs[..n] + bs[n..][..rest.good];
      assert ([r.payload] + rest.records)[1..] == rest.records;
    }
  }

  // A frame in front is the first record found.
  lemma ScanStep(crc: Checksum, p: Payload, more: seq<Byte>)
    ensures
      var rest := ScanAll(crc, more);
      var n := |Frame(crc, p)|;
      ScanAll(crc, Frame(crc, p) + more) == Scan([p] + rest.records, n + rest.good, Shift(rest.stop, n))
  {
    FrameReads(crc, p, more);
    hide Frame, ReadFrame;
    assert (Frame(crc, p) + more)[|Frame(crc, p)|..] == more;
  }

  // Whole records in front are found, and the scan goes on behind them.
  lemma {:induction false} ScanFrames(crc: Checksum, rs: seq<Payload>, tail: seq<Byte>)
    ensures
      var s := ScanAll(crc, tail);
      var n := |Frames(crc, rs)|;
      ScanAll(crc, Frames(crc, rs) + tail) == Scan(rs + s.records, n + s.good, Shift(s.stop, n))
  {
    hide ScanAll, Frame;
    var s := ScanAll(crc, tail);
    if rs == [] {
      assert Frames(crc, rs) + tail == tail && rs + s.records == s.records;
    } else {
      var more := Frames(crc, rs[1..]) + tail;
      ScanFrames(crc, rs[1..], tail);
      ScanStep(crc, rs[0], more);
      assert Frames(crc, rs) + tail == Frame(crc, rs[0]) + more;
      assert [rs[0]] + (rs[1..] + s.records) == rs + s.records;
    }
  }

  // Framing loses nothing: different record lists have different encodings.
  lemma FramesRoundTrip(crc: Checksum, rs: seq<Payload>)
    ensures ScanAll(crc, Frames(crc, rs)) == Scan(rs, |Frames(crc, rs)|, AtEof)
    ensures Recover(crc, Frames(crc, rs)) == Ok(rs)
  {
    ScanFrames(crc, rs, []);
    assert Frames(crc, rs) + [] == Frames(crc, rs);
  }

  // A run of bytes parses cleanly exactly when it is the encoding of some records.
  lemma CleanIffFrames(crc: Checksum, bs: seq<Byte>)
    ensures ParsesCleanly(crc, bs) <==> exists rs: seq<Payload> :: bs == Frames(crc, rs)
  {
    if ParsesCleanly(crc, bs) {
      GoodIsFrames(crc, bs);
      assert bs[..|bs|] == bs;
    }
    forall rs: seq<Payload> | bs == Frames(crc, rs) ensures ParsesCleanly(crc, bs) {
      FramesRoundTrip(crc, rs);
    }
  }

  // ---- crashes ----

  // How many whole records fit in the first `n` bytes of the encoding.
  function WholeRecords(crc: Checksum, rs: seq<Payload>, n: nat): (k: nat)
    ensures k <= |rs|
  {
    if rs == [] || n < |Frame(crc, rs[0])| then 0
    else 1 + WholeRecords(crc, rs[1..], n - |Frame(crc, rs[0])|)
  }

  // The count is right: that many fit, and one more would not.
  lemma {:induction false} WholeRecordsFit(crc: Checksum, rs: seq<Payload>, n: nat)
    ensures
      var k := WholeRecords(crc, rs, n);
      |Frames(crc, rs[..k])| <= n && (k < |rs| ==> n < |Frames(crc, rs[..k + 1])|)
  {
    if rs != [] && n >= |Frame(crc, rs[0])| {
      WholeRecordsFit(crc, rs[1..], n - |Frame(crc, rs[0])|);
      var k := WholeRecords(crc, rs, n);
      assert rs[..k][1..] == rs[1..][..k - 1];
      if k < |rs| { assert rs[..k + 1][1..] == rs[1..][..k]; }
    } else if rs != [] {
      assert rs[..1][1..] == [] && Frames(crc, rs[..1]) == Frame(crc, rs[0]) + Frames(crc, []);
    }
  }

  // All of them fit exactly when nothing is cut off, and none when not even the first does.
  lemma WholeRecordsAll(crc: Checksum, rs: seq<Payload>, n: nat)
    requires n <= |Frames(crc, rs)|
    ensures WholeRecords(crc, rs, n) == |rs| <==> n == |Frames(crc, rs)|
    ensures WholeRecords(crc, rs, n) == 0 <==> rs == [] || n < |Frame(crc, rs[0])|
  {
    hide Frame, Frames;
    WholeRecordsFit(crc, rs, n);
    var k := WholeRecords(crc, rs, n);
    if k == |rs| {
      assert rs[..k] == rs;
    } else {
      FramesConcat(crc, rs[..k + 1], rs[k + 1..]);
      assert rs == rs[..k + 1] + rs[k + 1..];
    }
  }

  // Nothing is kept of a frame cut short, and it is not taken for corruption.
  lemma CutFrameScans(crc: Checksum, p: Payload, n: nat)
    requires n < |Frame(crc, p)|
    ensures var s := ScanAll(crc, Frame(crc, p)[..n]); s.records == [] && !s.stop.AtCorrupt?
  {
    CutFrameReads(crc, p, n);
  }

  // A cut at any byte: recovery never reports corruption and keeps exactly the records
  // wholly before the cut.
  lemma {:induction false} CutRecovers(crc: Checksum, rs: seq<Payload>, n: nat)
    requires n <= |Frames(crc, rs)|
    ensures Recover(crc, Frames(crc, rs)[..n]) == Ok(rs[..WholeRecords(crc, rs, n)])
    ensures !ScanAll(crc, Frames(crc, rs)[..n]).stop.AtCorrupt?
  {
    hide ScanAll, Frame, ParsesCleanly;
    if rs == [] {
      FramesRoundTrip(crc, rs);
    } else if n < |Frame(crc, rs[0])| {
      CutFrameScans(crc, rs[0], n);
      assert Frames(crc, rs)[..n] == Frame(crc, rs[0])[..n];
    } else {
      var f := Frame(crc, rs[0]);
      var rest := Frames(crc, rs[1..])[..n - |f|];
      CutRecovers(crc, rs[1..], n - |f|);
      ScanStep(crc, rs[0], rest);
      assert Frames(crc, rs)[..n] == f + rest;
      assert rs[..WholeRecords(crc, rs, n)] == [rs[0]] + rs[1..][..WholeRecords(crc, rs[1..], n - |f|)];
    }
  }

  // Synced records survive arbitrary bytes behind them: recovery refuses or keeps them
  // all, and the file it leaves is the encoding of what it kept.
  lemma SyncedSurvive(crc: Checksum, rs: seq<Payload>, tail: seq<Byte>)
    ensures
      var bs := Frames(crc, rs) + tail;
      var r := Recover(crc, bs);
      r.Ok? ==>
        && rs <= r.value
        && bs[..ScanAll(crc, bs).good] == Frames(crc, r.value)
        && Recover(crc, Frames(crc, r.value)) == r
  {
    var bs := Frames(crc, rs) + tail;
    ScanFrames(crc, rs, tail);
    GoodIsFrames(crc, bs);
    FramesRoundTrip(crc, ScanAll(crc, bs).records);
  }

  // Appending to a recovered file loses nothing either: synced records, then a torn
  // write of further ones, recover to all of the former and whole ones of the latter, which
  // are all of them exactly when nothing was cut off.
  lemma TornAppendRecovers(crc: Checksum, synced: seq<Payload>, appended: seq<Payload>, n: nat)
    requires |Frames(crc, synced)| <= n <= |Frames(crc, synced + appended)|
    ensures
      var r := Recover(crc, Frames(crc, synced + appended)[..n]);
      && r.Ok? && synced <= r.value <= synced + appended
      && (r.value == synced + appended <==> n == |Frames(crc, synced + appended)|)
  {
    hide Recover, Frame, Frames, WholeRecords;
    var all := synced + appended;
    CutRecovers(crc, all, n);
    WholeRecordsFit(crc, all, n);
    WholeRecordsAll(crc, all, n);
    var k := WholeRecords(crc, all, n);
    assert all[..k] == all <==> k == |all|;
    var m := Min(k + 1, |synced|);
    assert all[..m] == synced[..m] && synced == synced[..m] + synced[m..];
    FramesConcat(crc, synced[..m], synced[m..]);
  }

  // ---- the exact corruption decision ----

  // A complete frame that cannot be trusted: its length is past the ceiling, or its
  // checksum does not match.
  ghost predicate CorruptFrame(crc: Checksum, bs: seq<Byte>, n: nat) {
    && HEADER_LEN <= n <= |bs|
    && var len := FromLE(bs[4..8]);
       if len > MAX_RECORD_LEN then n == HEADER_LEN
       else n == HEADER_LEN + len && Sum(crc, bs[HEADER_LEN..n]) != FromLE(bs[..4])
  }

  // The file is good records, one corrupt frame, then one or more good records.
  ghost predicate CorruptInside(crc: Checksum, bs: seq<Byte>, before: seq<Payload>, n: nat, after: seq<Payload>) {
    var k := |Frames(crc, before)|;
    && Frames(crc, before) <= bs
    && CorruptFrame(crc, bs[k..], n)
    && after != []
    && bs[k + n..] == Frames(crc, after)
  }

  lemma CorruptReads(crc: Checksum, bs: seq<Byte>, n: nat)
    ensures ReadFrame(crc, bs) == (Corrupt, n) <==> CorruptFrame(crc, bs, n)
  {
  }

  // Recovery refuses a file if and only if corruption sits in front of good records.
  lemma RefusesIffCorruptInside(crc: Checksum, bs: seq<Byte>)
    ensures Recover(crc, bs).Err? <==>
      exists before: seq<Payload>, n: nat, after: seq<Payload> :: CorruptInside(crc, bs, before, n, after)
  {
    if Recover(crc, bs).Err? {
      var before, n, after := RefusalExplained(crc, bs);
    }
    forall before: seq<Payload>, n: nat, after: seq<Payload> | CorruptInside(crc, bs, before, n, after)
      ensures Recover(crc, bs).Err?
    {
      CorruptInsideRefused(crc, bs, before, n, after);
    }
  }

  // A record damaged so that its checksum changes, between whole records: with more behind it
  // the file is refused; as the last one it is cut off, like a torn write.
  lemma DamageOutcome(crc: Checksum, before: seq<Payload>, p: Payload, q: Payload, after: seq<Payload>)
    requires |p| == |q| && crc(ToLE(|p|) + p) != crc(ToLE(|q|) + q)
    ensures
      var bs := Frames(crc, before) + (Frame(crc, p)[..HEADER_LEN] + q + Frames(crc, after));
      Recover(crc, bs) == if after != [] then Err(Corruption) else Ok(before)
  {
    var rest, n := Frame(crc, p)[..HEADER_LEN] + q + Frames(crc, after), HEADER_LEN + |q|;
    hide Frame, Frames, ReadFrame, Sum, ScanAll, Recover;
    DamageRead(crc, p, q, Frames(crc, after));
    assert rest[n..] == Frames(crc, after);
    CorruptOutcome(crc, before, rest, n, after);
  }

  lemma CorruptOutcome(crc: Checksum, before: seq<Payload>, rest: seq<Byte>, n: nat, after: seq<Payload>)
    requires ReadFrame(crc, rest) == (Corrupt, n) && rest[n..] == Frames(crc, after)
    ensures Recover(crc, Frames(crc, before) + rest) == if after != [] then Err(Corruption) else Ok(before)
  {
    hide Frames, ReadFrame, ScanAll, ParsesCleanly;
    CorruptFirst(crc, rest, n);
    var k, bs := |Frames(crc, before)|, Frames(crc, before) + rest;
    ScanFrames(crc, before, rest);
    NotEmpty(crc, after);
    CorruptRest(crc, before, rest, n, after);
    assert before + [] == before;
  }

  lemma CorruptRest(crc: Checksum, before: seq<Payload>, rest: seq<Byte>, n: nat, after: seq<Payload>)
    requires n <= |rest| && rest[n..] == Frames(crc, after)
    ensures
      var k, bs := |Frames(crc, before)|, Frames(crc, before) + rest;
      ParsesCleanly(crc, bs[k + n..]) && |bs| - (k + n) == |Frames(crc, after)|
  {
    hide Frames, ScanAll;
    var k, bs := |Frames(crc, before)|, Frames(crc, before) + rest;
    assert bs[k + n..] == rest[n..];
    FramesRoundTrip(crc, after);
  }

  lemma CorruptFirst(crc: Checksum, bs: seq<Byte>, n: nat)
    requires ReadFrame(crc, bs) == (Corrupt, n)
    ensures ScanAll(crc, bs) == Scan([], 0, AtCorrupt(n))
  {
  }

  lemma NotEmpty(crc: Checksum, rs: seq<Payload>)
    ensures Frames(crc, rs) == [] <==> rs == []
  {
  }

  lemma CorruptInsideRefused(crc: Checksum, bs: seq<Byte>, before: seq<Payload>, n: nat, after: seq<Payload>)
    requires CorruptInside(crc, bs, before, n, after)
    ensures Recover(crc, bs).Err?
  {
    var k := |Frames(crc, before)|;
    hide CorruptFrame, Frame, Frames, ScanAll, ReadFrame;
    assert bs == Frames(crc, before) + bs[k..];
    CorruptReads(crc, bs[k..], n);
    ScanFrames(crc, before, bs[k..]);
    FramesRoundTrip(crc, after);
    NotEmpty(crc, after);
    CorruptFirst(crc, bs[k..], n);
  }

  lemma RefusalExplained(crc: Checksum, bs: seq<Byte>)
    returns (before: seq<Payload>, n: nat, after: seq<Payload>)
    requires Recover(crc, bs).Err?
    ensures CorruptInside(crc, bs, before, n, after)
  {
    hide Frame, Frames, ReadFrame, CorruptFrame;
    var s := ScanAll(crc, bs);
    before, n := s.records, s.stop.after - s.good;
    GoodIsFrames(crc, bs);
    StopsAtCorrupt(crc, bs);
    CorruptReads(crc, bs[s.good..], n);
    CleanIffFrames(crc, bs[s.stop.after..]);
    after :| bs[s.stop.after..] == Frames(crc, after);
    NotEmpty(crc, after);
    hide ScanAll;
  }

  // The scan stops at the frame right behind the good part.
  lemma {:induction false} StopsAtCorrupt(crc: Checksum, bs: seq<Byte>)
    requires ScanAll(crc, bs).stop.AtCorrupt?
    ensures
      var s := ScanAll(crc, bs);
      ReadFrame(crc, bs[s.good..]) == (Corrupt, s.stop.after - s.good)
    decreases |bs|
  {
    hide ReadFrame;
    var (r, n) := ReadFrame(crc, bs);
    if r.Entry? {
      StopsAtCorrupt(crc, bs[n..]);
      var rest := ScanAll(crc, bs[n..]);
      assert bs[n..][rest.good..] == bs[n + rest.good..];
    } else {
      assert bs[0..] == bs;
    }
  }
}
