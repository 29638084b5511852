/**
  Record framing: each record is [crc][length][payload], the two header fields four
  little-endian bytes each, the checksum over length and payload.

  The checksum is a parameter: nothing here depends on which function it is.
*/
module Record {
  import opened Types

  const HEADER_LEN: nat := 8
  const MAX_RECORD_LEN: nat := 64 * 1024 * 1024

  type U32 = x: int | 0 <= x < 0x1_0000_0000
  type Payload = p: seq<Byte> | |p| <= MAX_RECORD_LEN
  type Checksum = seq<Byte> -> U32

  // What a read can come back with.
  datatype RecordRead =
    | Entry(payload: Payload)
    | Eof        // no byte left
    | Truncated  // fewer bytes left than header and length ask for
    | Corrupt    // the header names an impossible length or the wrong checksum

  // ---- little-endian integers ----

  // One low byte and the bytes above it.
  function Join(low: int, high: int): int {
    low + 0x100 * high
  }

  function ToLE(x: U32): (bs: seq<Byte>)
    ensures |bs| == 4 && FromLE(bs) == x
  {
    var x1, x2, x3 := x / 0x100, x / 0x100 / 0x100, x / 0x100 / 0x100 / 0x100;
    [x % 0x100, x1 % 0x100, x2 % 0x100, x3]
  }

  function FromLE(bs: seq<Byte>): (x: U32)
    requires |bs| == 4
  {
    Join(bs[0], Join(bs[1], Join(bs[2], bs[3])))
  }

  lemma JoinSplits(low: Byte, high: int)
    ensures Join(low, high) % 0x100 == low && Join(low, high) / 0x100 == high
  {
  }

  // Four bytes are the encoding of the number they denote.
  lemma LittleEndianUnique(bs: seq<Byte>)
    requires |bs| == 4
    ensures ToLE(FromLE(bs)) == bs
  {
    JoinSplits(bs[2], bs[3]);
    JoinSplits(bs[1], Join(bs[2], bs[3]));
    JoinSplits(bs[0], Join(bs[1], Join(bs[2], bs[3])));
  }

  // ---- frames ----

  function Sum(crc: Checksum, payload: Payload): U32 {
    crc(ToLE(|payload|) + payload)
  }

  function Frame(crc: Checksum, payload: Payload): (bs: seq<Byte>)
    ensures |bs| == HEADER_LEN + |payload|
  {
    ToLE(Sum(crc, payload)) + ToLE(|payload|) + payload
  }

  function Frames(crc: Checksum, rs: seq<Payload>): seq<Byte> {
    if rs == [] then [] else Frame(crc, rs[0]) + Frames(crc, rs[1..])
  }

  // One read from the front of `bs`: its outcome, and how many bytes it consumes.
  function ReadFrame(crc: Checksum, bs: seq<Byte>): (r: (RecordRead, nat))
    ensures r.1 <= |bs|
    ensures r.0.Entry? || r.0.Corrupt? ==> r.1 >= HEADER_LEN
  {
    if bs == [] then (Eof, 0)
    else if |bs| < HEADER_LEN then (Truncated, |bs|)
    else
      var len := FromLE(bs[4..8]);
      if len > MAX_RECORD_LEN then (Corrupt, HEADER_LEN)
      else if |bs| < HEADER_LEN + len then (Truncated, |bs|)
      else
        var payload := bs[HEADER_LEN..HEADER_LEN + len];
        if Sum(crc, payload) != FromLE(bs[..4]) then (Corrupt, HEADER_LEN + len)
        else (Entry(payload), HEADER_LEN + len)
  }

  // The number four bytes denote, lowest first.
  function Number(a: Byte, b: Byte, c: Byte, d: Byte): nat {
    a + 0x100 * b + 0x1_0000 * c + 0x100_0000 * d
  }

  // Byte for byte: a frame is the checksum of everything behind it, the length, the payload.
  lemma FrameLayout(crc: Checksum, p: Payload)
    ensures
      var bs := Frame(crc, p);
      && |bs| == 8 + |p| && bs[8..] == p && Number(bs[4], bs[5], bs[6], bs[7]) == |p|
      && Number(bs[0], bs[1], bs[2], bs[3]) == crc(bs[4..])
  {
    var bs := Frame(crc, p);
    assert bs[..4] == ToLE(Sum(crc, p)) && bs[4..8] == ToLE(|p|) && bs[4..] == ToLE(|p|) + p;
  }

  // Byte for byte: what one read makes of any bytes. A record is taken if and only if it is
  // all there, at most 64 MiB long, and carries the checksum of its length and payload.
  lemma ReadRule(crc: Checksum, bs: seq<Byte>)
    ensures
      var (r, n) := ReadFrame(crc, bs);
      if |bs| < 8 then r == (if bs == [] then Eof else Truncated) && n == |bs|
      else
        var len := Number(bs[4], bs[5], bs[6], bs[7]);
        if len > 67108864 then r == Corrupt && n == 8
        else if |bs| < 8 + len then r == Truncated && n == |bs|
        else
          && n == 8 + len
          && r == if crc(bs[4..n]) == Number(bs[0], bs[1], bs[2], bs[3]) then Entry(bs[8..n]) else Corrupt
  {
    if |bs| >= 8 {
      LittleEndianUnique(bs[4..8]);
      var len := FromLE(bs[4..8]);
      if len <= MAX_RECORD_LEN && |bs| >= 8 + len {
        assert bs[4..8 + len] == bs[4..8] + bs[8..8 + len];
      }
    }
  }

  // A payload damaged under its frame is noticed whenever the damage changes the checksum.
  lemma DamageRead(crc: Checksum, p: Payload, q: Payload, tail: seq<Byte>)
    requires |p| == |q| && crc(ToLE(|p|) + p) != crc(ToLE(|q|) + q)
    ensures ReadFrame(crc, Frame(crc, p)[..HEADER_LEN] + q + tail) == (Corrupt, HEADER_LEN + |q|)
  {
    var bs := Frame(crc, p)[..HEADER_LEN] + q + tail;
    assert bs[..4] == ToLE(Sum(crc, p)) && bs[4..8] == ToLE(|p|) && bs[HEADER_LEN..HEADER_LEN + |q|] == q;
  }

  // A frame reads back as its payload, whatever follows it.
  lemma FrameReads(crc: Checksum, p: Payload, tail: seq<Byte>)
    ensures ReadFrame(crc, Frame(crc, p) + tail) == (Entry(p), |Frame(crc, p)|)
  {
    var bs := Frame(crc, p) + tail;
    assert bs[..4] == ToLE(Sum(crc, p));
    assert bs[4..8] == ToLE(|p|);
    assert bs[HEADER_LEN..HEADER_LEN + |p|] == p;
  }

  // What reads as a payload is exactly the frame of that payload.
  lemma ReadIsFrame(crc: Checksum, bs: seq<Byte>)
    requires ReadFrame(crc, bs).0.Entry?
    ensures var (r, n) := ReadFrame(crc, bs); bs[..n] == Frame(crc, r.payload)
  {
    var (r, n) := ReadFrame(crc, bs);
    LittleEndianUnique(bs[..4]);
    LittleEndianUnique(bs[4..8]);
    assert bs[..n] == bs[..4] + bs[4..8] + bs[HEADER_LEN..n];
  }

  // A frame cut short is a torn record, never a corrupt one.
  lemma CutFrameReads(crc: Checksum, p: Payload, n: nat)
    requires n < |Frame(crc, p)|
    ensures ReadFrame(crc, Frame(crc, p)[..n]).0 == if n == 0 then Eof else Truncated
  {
    var bs := Frame(crc, p)[..n];
    if n >= HEADER_LEN { assert bs[4..8] == ToLE(|p|); }
  }

  lemma {:induction false} FramesConcat(crc: Checksum, a: seq<Payload>, b: seq<Payload>)
    ensures Frames(crc, a + b) == Frames(crc, a) + Frames(crc, b)
  {
    if a == [] {
      assert a + b == b;
    } else {
      assert (a + b)[1..] == a[1..] + b;
      FramesConcat(crc, a[1..], b);
    }
  }

  // ---- the reader ----

  datatype ReadResult = Interrupted | Read(n: nat)

  // A byte source that may hand out its data in pieces of any size and may be
  // interrupted a finite number of times.
  class Reader {
    const data: seq<Byte>
    var pos: nat
    var interruptions: nat

    ghost predicate Valid()
      reads this
    {
      pos <= |data|
    }

    ghost function Rest(): seq<Byte>
      reads this
      requires Valid()
    {
      data[pos..]
    }

    constructor (data: seq<Byte>, interruptions: nat)
      ensures Valid() && this.data == data && pos == 0
    {
      this.data := data;
      this.pos := 0;
      this.interruptions := interruptions;
    }

    // Read into buf[from..]: at least one byte unless there is none left or no room.
    method Read(buf: array<Byte>, from: nat) returns (r: ReadResult)
      requires Valid() && from <= buf.Length
      modifies this`pos, this`interruptions, buf
      ensures Valid() && interruptions <= old(interruptions)
      ensures forall k :: 0 <= k < from ==> buf[k] == old(buf[k])
      ensures r.Interrupted? ==> pos == old(pos) && interruptions < old(interruptions)
      ensures r.Read? ==>
        && pos == old(pos) + r.n && from + r.n <= buf.Length
        && (r.n == 0 ==> old(Rest()) == [] || from == buf.Length)
        && buf[from..from + r.n] == old(Rest())[..r.n]
    {
      var most := Min(buf.Length - from, |data| - pos);
      var interrupted :| interrupted ==> interruptions > 0;
      if interrupted {
        interruptions := interruptions - 1;
        return Interrupted;
      }
      var n: nat :| n <= most && (n == 0 ==> most == 0);
      forall k | 0 <= k < n { buf[from + k] := data[pos + k]; }
      assert buf[from..from + n] == data[pos..][..n];
      pos := pos + n;
      r := ReadResult.Read(n);
    }
  }

  // Read until the buffer is full or the data runs out; return how many bytes.
  method Fill(r: Reader, buf: array<Byte>) returns (read: nat)
    requires r.Valid()
    modifies r`pos, r`interruptions, buf
    ensures r.Valid() && read == Min(buf.Length, |old(r.Rest())|)
    ensures r.pos == old(r.pos) + read && buf[..read] == old(r.Rest())[..read]
  {
    read := 0;
    ghost var rest := r.Rest();
    while read < buf.Length
      invariant r.Valid() && read <= buf.Length && read <= |rest|
      invariant r.pos == old(r.pos) + read && r.Rest() == rest[read..]
      invariant buf[..read] == rest[..read]
      decreases r.interruptions + buf.Length - read
    {
      ghost var before := buf[..read];
      var got := r.Read(buf, read);
      if got.Read? {
        assert buf[..read + got.n] == before + rest[read..][..got.n] == rest[..read + got.n];
        if got.n == 0 { break; }
        read := read + got.n;
      } else {
        assert buf[..read] == before;
      }
    }
  }

  // Read one framed record.
  method ReadRecord(r: Reader, crc: Checksum) returns (record: RecordRead)
    requires r.Valid()
    modifies r`pos, r`interruptions
    ensures r.Valid()
    ensures (record, r.pos - old(r.pos)) == ReadFrame(crc, old(r.Rest()))
  {
    ghost var rest := r.Rest();
    var header := new Byte[HEADER_LEN](_ => 0);
    var n := Fill(r, header);
    if n == 0 { return Eof; }
    if n < HEADER_LEN { return Truncated; }
    assert header[..] == rest[..HEADER_LEN];
    var sum := FromLE(header[0..4]);
    var len := FromLE(header[4..8]);
    assert rest[..HEADER_LEN][0..4] == rest[..4] && rest[..HEADER_LEN][4..8] == rest[4..8];
    if len > MAX_RECORD_LEN { return Corrupt; }
    var payload := new Byte[len](_ => 0);
    var m := Fill(r, payload);
    if m < payload.Length { return Truncated; }
    assert payload[..] == rest[HEADER_LEN..][..len] == rest[HEADER_LEN..HEADER_LEN + len];
    if Sum(crc, payload[..]) != sum { return Corrupt; }
    return Entry(payload[..]);
  }

  // ---- the writer ----

  // A buffered file: what has reached the file, and what is still in memory.
  datatype Writer = Writer(file: seq<Byte>, buffer: seq<Byte>) {
    // The file once everything is flushed.
    function Contents(): seq<Byte> {
      file + buffer
    }

    // Writing may push any amount of the buffer through to the file.
    function Write(bytes: seq<Byte>, spill: nat): (w: Writer)
      ensures w.Contents() == Contents() + bytes && file <= w.file
    {
      var pending := buffer + bytes;
      var out := Min(spill, |pending|);
      assert pending == pending[..out] + pending[out..];
      Writer(file + pending[..out], pending[out..])
    }

    function Flush(): Writer {
      Writer(file + buffer, [])
    }
  }

  // Append one framed record and return the number of bytes written.
  method WriteRecord(w: Writer, crc: Checksum, payload: Payload, spill: nat) returns (w': Writer, written: nat)
    ensures w'.Contents() == w.Contents() + Frame(crc, payload) && w.file <= w'.file
    ensures written == |Frame(crc, payload)|
  {
    w' := w.Write(ToLE(Sum(crc, payload)), spill);
    w' := w'.Write(ToLE(|payload|), spill);
    w' := w'.Write(payload, spill);
    written := HEADER_LEN + |payload|;
  }
}
