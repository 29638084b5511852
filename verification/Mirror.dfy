/**
  How the write-ahead log mirrors the in-memory entries: above the snapshot, the WAL
  records decode to exactly the entries, one index each.
*/
module Mirror {
  import opened Types
  import opened Record
  import opened SegmentView

  // The entry serialiser, as far as the program relies on it.
  datatype Codec = Codec(encode: LogEntry -> seq<Byte>, decode: seq<Byte> -> Option<LogEntry>) {
    // What an entry needs to be stored: it fits in one record and reads back as itself.
    ghost predicate Stores(e: LogEntry) {
      |encode(e)| <= MAX_RECORD_LEN && decode(encode(e)) == Some(e)
    }

    ghost function Record(e: LogEntry): Payload
      requires Stores(e)
    {
      encode(e)
    }
  }

  // `rs` are the WAL records from index `first` on; `entries` the entries above `snap`.
  ghost predicate Mirrors(codec: Codec, first: LogIndex, rs: seq<Payload>, snap: LogIndex, entries: Entries) {
    && first <= snap + 1
    && first + |rs| == snap + 1 + |entries|
    && forall k :: 0 <= k < |entries| ==> codec.decode(rs[snap + 1 - first + k]) == Some(entries[k])
  }

  lemma MirrorAppend(codec: Codec, first: LogIndex, rs: seq<Payload>, snap: LogIndex, entries: Entries, e: LogEntry)
    requires codec.Stores(e) && Mirrors(codec, first, rs, snap, entries)
    ensures Mirrors(codec, first, rs + [codec.encode(e)], snap, entries + [e])
  {
    forall k | 0 <= k < |entries + [e]|
      ensures codec.decode((rs + [codec.encode(e)])[snap + 1 - first + k]) == Some((entries + [e])[k])
    {
    }
  }

  lemma MirrorSuffix(codec: Codec, first: LogIndex, rs: seq<Payload>, snap: LogIndex, entries: Entries, keep: LogIndex)
    requires Mirrors(codec, first, rs, snap, entries) && snap <= keep <= snap + |entries|
    ensures Mirrors(codec, first, rs[..keep + 1 - first], snap, entries[..keep - snap])
  {
  }

  // Dropping WAL records is invisible while everything above the snapshot stays.
  lemma MirrorPrefix(codec: Codec, first: LogIndex, rs: seq<Payload>, snap: LogIndex, entries: Entries,
                     first': LogIndex)
    requires Mirrors(codec, first, rs, snap, entries) && first <= first' <= snap + 1
    ensures Mirrors(codec, first', rs[first' - first..], snap, entries)
  {
    forall k | 0 <= k < |entries|
      ensures codec.decode(rs[first' - first..][snap + 1 - first' + k]) == Some(entries[k])
    {
      assert rs[first' - first..][snap + 1 - first' + k] == rs[snap + 1 - first + k];
    }
  }

  lemma MirrorCompact(codec: Codec, first: LogIndex, rs: seq<Payload>, snap: LogIndex, entries: Entries,
                      snap': LogIndex)
    requires Mirrors(codec, first, rs, snap, entries) && snap <= snap' <= snap + |entries|
    ensures first <= snap' + 1 && Mirrors(codec, first, rs, snap', entries[snap' - snap..])
  {
    var cut := entries[snap' - snap..];
    forall k | 0 <= k < |cut| ensures codec.decode(rs[snap' + 1 - first + k]) == Some(cut[k]) {
      assert cut[k] == entries[snap' - snap + k];
      assert rs[snap' + 1 - first + k] == rs[snap + 1 - first + (snap' - snap + k)];
    }
  }

  // The log determines the entries.
  lemma MirrorUnique(codec: Codec, first: LogIndex, rs: seq<Payload>, snap: LogIndex, a: Entries, b: Entries)
    requires Mirrors(codec, first, rs, snap, a) && Mirrors(codec, first, rs, snap, b)
    ensures a == b
  {
    forall k | 0 <= k < |a| ensures a[k] == b[k] {
      assert codec.decode(rs[snap + 1 - first + k]) == Some(a[k]);
    }
  }

  // What a restart loads of the records it reads back: every one above the snapshot, decoded,
  // or nothing when one of them does not decode.
  function LoadedFrom(codec: Codec, records: seq<(LogIndex, Payload)>, snap: LogIndex): Option<Entries> {
    if records == [] then Some([])
    else
      var front, (index, bytes) := LoadedFrom(codec, records[..|records| - 1], snap), records[|records| - 1];
      if front.None? || index <= snap then front
      else
        var e := codec.decode(bytes);
        if e.None? then None else Some(front.value + [e.value])
  }

  // The same of records with consecutive indices.
  function Loaded(codec: Codec, first: LogIndex, rs: seq<Payload>, snap: LogIndex): Option<Entries> {
    LoadedFrom(codec, Numbered(first, rs), snap)
  }

  // One record more.
  lemma LoadedSnoc(codec: Codec, first: LogIndex, rs: seq<Payload>, snap: LogIndex)
    requires rs != []
    ensures
      var k := |rs| - 1;
      var front, e := Loaded(codec, first, rs[..k], snap), codec.decode(rs[k]);
      Loaded(codec, first, rs, snap) ==
        if front.None? || first + k <= snap then front
        else if e.None? then None else Some(front.value + [e.value])
  {
    var k := |rs| - 1;
    assert Numbered(first, rs)[..k] == Numbered(first, rs[..k]);
  }

  // A restart gives back `entries` exactly when the log mirrors them.
  lemma {:induction false} LoadedIffMirrors(codec: Codec, first: LogIndex, rs: seq<Payload>, snap: LogIndex,
                                            entries: Entries)
    requires first <= snap + 1 <= first + |rs|
    ensures Loaded(codec, first, rs, snap) == Some(entries) <==> Mirrors(codec, first, rs, snap, entries)
  {
    hide Loaded;
    var front := if rs == [] then [] else rs[..|rs| - 1];
    if rs != [] { LoadedSnoc(codec, first, rs, snap); }
    if first + |rs| == snap + 1 {
      LoadedBelow(codec, first, rs, snap);
    } else if Mirrors(codec, first, rs, snap, entries) {
      MirrorSuffix(codec, first, rs, snap, entries, first + |rs| - 2);
      LoadedIffMirrors(codec, first, front, snap, entries[..|entries| - 1]);
      assert codec.decode(rs[snap + 1 - first + (|entries| - 1)]) == Some(entries[|entries| - 1]);
      assert entries == entries[..|entries| - 1] + [entries[|entries| - 1]];
    } else if Loaded(codec, first, rs, snap) == Some(entries) {
      var es := Loaded(codec, first, front, snap).value;
      LoadedIffMirrors(codec, first, front, snap, es);
      assert false;
    }
  }

  lemma {:induction false} LoadedBelow(codec: Codec, first: LogIndex, rs: seq<Payload>, snap: LogIndex)
    requires first + |rs| <= snap + 1
    ensures Loaded(codec, first, rs, snap) == Some([])
  {
    if rs != [] {
      LoadedSnoc(codec, first, rs, snap);
      LoadedBelow(codec, first, rs[..|rs| - 1], snap);
    }
  }

  // Entries a crash caught in flight: whatever prefix of their records reached the disk
  // mirrors the same prefix of the entries, behind everything that was synced.
  lemma {:induction false} TornMirrors(codec: Codec, first: LogIndex, rs: seq<Payload>, rs': seq<Payload>,
                                       snap: LogIndex, entries: Entries, pending: Entries)
    requires Mirrors(codec, first, rs, snap, entries)
    requires forall e :: e in pending ==> codec.Stores(e)
    requires rs <= rs' <= rs + Encoded(codec, pending)
    ensures |rs'| - |rs| <= |pending| && first <= snap + 1 <= first + |rs'|
    ensures Mirrors(codec, first, rs', snap, entries + pending[..|rs'| - |rs|])
  {
    var es := entries + pending[..|rs'| - |rs|];
    forall k | 0 <= k < |es| ensures codec.decode(rs'[snap + 1 - first + k]) == Some(es[k]) {
      var at := snap + 1 - first + k;
      if k < |entries| {
        assert rs'[at] == rs[at];
      } else {
        var e := pending[k - |entries|];
        assert e in pending && rs'[at] == (rs + Encoded(codec, pending))[at] == codec.encode(e);
      }
    }
  }

  // So a restart brings them back.
  lemma {:induction false} TornEntries(codec: Codec, first: LogIndex, rs: seq<Payload>, rs': seq<Payload>,
                                       snap: LogIndex, entries: Entries, pending: Entries)
    requires Mirrors(codec, first, rs, snap, entries)
    requires forall e :: e in pending ==> codec.Stores(e)
    requires rs <= rs' <= rs + Encoded(codec, pending)
    ensures |rs'| - |rs| <= |pending|
    ensures Loaded(codec, first, rs', snap) == Some(entries + pending[..|rs'| - |rs|])
  {
    hide Loaded, Encoded, Mirrors;
    TornMirrors(codec, first, rs, rs', snap, entries, pending);
    LoadedIffMirrors(codec, first, rs', snap, entries + pending[..|rs'| - |rs|]);
  }

  ghost function Encoded(codec: Codec, es: Entries): (rs: seq<Payload>)
    requires forall e :: e in es ==> codec.Stores(e)
  {
    seq(|es|, k requires 0 <= k < |es| => assert es[k] in es; codec.Record(es[k]))
  }

  lemma LoadedOne(codec: Codec, front: seq<(LogIndex, Payload)>, index: LogIndex, e: LogEntry, snap: LogIndex,
                  loaded: Entries)
    requires LoadedFrom(codec, front, snap) == Some(loaded) && index > snap && codec.Stores(e)
    ensures LoadedFrom(codec, front + [(index, codec.Record(e))], snap) == Some(loaded + [e])
  {
    var records := front + [(index, codec.Record(e))];
    assert records[..|records| - 1] == front;
  }

  // Records above the snapshot, read after others, add their entries.
  lemma {:induction false} LoadedMore(codec: Codec, front: seq<(LogIndex, Payload)>, first: LogIndex, es: Entries,
                                      snap: LogIndex, loaded: Entries)
    requires LoadedFrom(codec, front, snap) == Some(loaded) && first > snap
    requires forall e :: e in es ==> codec.Stores(e)
    ensures LoadedFrom(codec, front + Numbered(first, Encoded(codec, es)), snap) == Some(loaded + es)
  {
    hide LoadedFrom;
    var records := front + Numbered(first, Encoded(codec, es));
    if es == [] {
      assert records == front && loaded + es == loaded;
    } else {
      var k := |es| - 1;
      assert es[k] in es;
      LoadedMore(codec, front, first, es[..k], snap, loaded);
      assert Numbered(first, Encoded(codec, es))
          == Numbered(first, Encoded(codec, es[..k])) + [(first + k, codec.encode(es[k]))];
      LoadedOne(codec, front + Numbered(first, Encoded(codec, es[..k])), first + k, es[k], snap, loaded + es[..k]);
      assert records == front + Numbered(first, Encoded(codec, es[..k])) + [(first + k, codec.encode(es[k]))];
      assert loaded + es == loaded + es[..k] + [es[k]];
    }
  }
}
