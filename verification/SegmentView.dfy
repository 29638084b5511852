/**
  A chain of segments seen as one indexed sequence of records.
*/
module SegmentView {
  import opened Types
  import opened Record

  datatype SegView = SegView(base: LogIndex, records: seq<Payload>) {
    // The index one past the last record.
    function End(): LogIndex {
      base + |records|
    }
  }

  // Each segment starts where the one before ends, and only the last may be empty.
  ghost predicate Linked(vs: seq<SegView>) {
    && vs != [] && vs[0].base >= 1
    && forall i :: 0 <= i < |vs| - 1 ==> vs[i].records != [] && vs[i + 1].base == vs[i].End()
  }

  function Last(vs: seq<SegView>): SegView
    requires vs != []
  {
    vs[|vs| - 1]
  }

  function Flatten(vs: seq<SegView>): seq<Payload> {
    if vs == [] then [] else vs[0].records + Flatten(vs[1..])
  }

  // Records paired with their indices.
  function Numbered(first: LogIndex, rs: seq<Payload>): (out: seq<(LogIndex, Payload)>)
    ensures |out| == |rs|
  {
    seq(|rs|, k requires 0 <= k < |rs| => (first + k, rs[k]))
  }

  // Every segment's records paired with the indices their own segment gives them.
  function NumberedAll(vs: seq<SegView>): (out: seq<(LogIndex, Payload)>)
  {
    if vs == [] then [] else NumberedAll(vs[..|vs| - 1]) + Numbered(Last(vs).base, Last(vs).records)
  }

  lemma NumberedConcat(first: LogIndex, a: seq<Payload>, b: seq<Payload>)
    ensures Numbered(first, a + b) == Numbered(first, a) + Numbered(first + |a|, b)
  {
  }

  lemma {:induction false} FlattenConcat(a: seq<SegView>, b: seq<SegView>)
    ensures Flatten(a + b) == Flatten(a) + Flatten(b)
  {
    if a == [] {
      assert a + b == b;
    } else {
      assert (a + b)[1..] == a[1..] + b;
      FlattenConcat(a[1..], b);
    }
  }

  lemma FlattenNothing()
    ensures Flatten([]) == []
  {
  }

  lemma FlattenOne(v: SegView)
    ensures Flatten([v]) == v.records
  {
    assert Flatten([v][1..]) == [];
  }

  lemma FlattenSnoc(vs: seq<SegView>, j: nat)
    requires j < |vs|
    ensures Flatten(vs[..j + 1]) == Flatten(vs[..j]) + vs[j].records
  {
    hide Flatten;
    FlattenOne(vs[j]);
    FlattenConcat(vs[..j], [vs[j]]);
    assert vs[..j + 1] == vs[..j] + [vs[j]];
  }

  lemma FlattenSplit(vs: seq<SegView>, j: nat)
    requires j < |vs|
    ensures Flatten(vs) == Flatten(vs[..j]) + vs[j].records + Flatten(vs[j + 1..])
    ensures Flatten(vs[..j + 1]) == Flatten(vs[..j]) + vs[j].records
  {
    hide Flatten;
    FlattenSnoc(vs, j);
    FlattenParts(vs, j + 1);
  }

  lemma FlattenParts(vs: seq<SegView>, k: nat)
    requires k <= |vs|
    ensures Flatten(vs) == Flatten(vs[..k]) + Flatten(vs[k..])
  {
    hide Flatten;
    assert vs == vs[..k] + vs[k..];
    FlattenConcat(vs[..k], vs[k..]);
  }

  // The records in front of segment `j` fill the indices below its base.
  lemma {:induction false} FlattenLength(vs: seq<SegView>, j: nat)
    requires Linked(vs) && j < |vs|
    ensures vs[0].base <= vs[j].base && |Flatten(vs[..j])| == vs[j].base - vs[0].base
  {
    if j > 0 {
      FlattenLength(vs, j - 1);
      FlattenSplit(vs, j - 1);
      assert vs[j - 1 + 1].base == vs[j - 1].End();
    }
  }

  lemma WholeLength(vs: seq<SegView>)
    requires Linked(vs)
    ensures vs[0].base <= Last(vs).base && |Flatten(vs)| == Last(vs).End() - vs[0].base
  {
    FlattenLength(vs, |vs| - 1);
    FlattenSplit(vs, |vs| - 1);
    assert vs[|vs|..] == [];
  }

  lemma NumberedNothing()
    ensures NumberedAll([]) == []
  {
  }

  lemma NumberedSnoc(vs: seq<SegView>, k: nat)
    requires k < |vs|
    ensures NumberedAll(vs[..k + 1]) == NumberedAll(vs[..k]) + Numbered(vs[k].base, vs[k].records)
  {
    assert vs[..k + 1][..k] == vs[..k];
  }

  lemma NumberedLast(vs: seq<SegView>, v: SegView)
    ensures NumberedAll(vs + [v]) == NumberedAll(vs) + Numbered(v.base, v.records)
  {
    assert (vs + [v])[..|vs|] == vs;
  }

  // In a linked chain those are the indices of the whole.
  lemma {:induction false} LinkedNumbered(vs: seq<SegView>, j: nat)
    requires Linked(vs) && j <= |vs|
    ensures NumberedAll(vs[..j]) == Numbered(vs[0].base, Flatten(vs[..j]))
  {
    hide Numbered, NumberedAll, Flatten;
    if j == 0 {
      NumberedNothing();
      FlattenNothing();
      assert vs[..0] == [];
    } else {
      LinkedNumbered(vs, j - 1);
      FlattenLength(vs, j - 1);
      FlattenSnoc(vs, j - 1);
      NumberedSnoc(vs, j - 1);
      NumberedConcat(vs[0].base, Flatten(vs[..j - 1]), vs[j - 1].records);
    }
  }

  // Bases ascend: a later segment starts no lower than an earlier one ends.
  lemma {:induction false} BasesAscend(vs: seq<SegView>, i: nat, j: nat)
    requires Linked(vs) && i < j < |vs|
    ensures vs[i].End() <= vs[j].base
    decreases j
  {
    assert vs[j - 1 + 1].base == vs[j - 1].End();
    if i < j - 1 { BasesAscend(vs, i, j - 1); }
  }

  lemma FirstNotEmpty(vs: seq<SegView>)
    requires Linked(vs) && |vs| > 1
    ensures vs[0].records != []
  {
  }

  // ---- the four changes ----

  function AddRecord(vs: seq<SegView>, p: Payload): seq<SegView>
    requires vs != []
  {
    vs[|vs| - 1 := SegView(Last(vs).base, Last(vs).records + [p])]
  }

  lemma AddToFresh(vs: seq<SegView>, base: LogIndex, p: Payload)
    ensures AddRecord(vs + [SegView(base, [])], p) == vs + [SegView(base, [p])]
  {
    assert [] + [p] == [p];
  }

  lemma AddRecordKeeps(vs: seq<SegView>, p: Payload)
    requires Linked(vs)
    ensures Linked(AddRecord(vs, p)) && Flatten(AddRecord(vs, p)) == Flatten(vs) + [p]
    ensures Last(AddRecord(vs, p)).End() == Last(vs).End() + 1
  {
    var j, vs' := |vs| - 1, AddRecord(vs, p);
    FlattenSplit(vs, j);
    FlattenSplit(vs', j);
    assert vs'[..j] == vs[..j] && vs'[j + 1..] == [] && vs[j + 1..] == [];
  }

  lemma RotateKeeps(vs: seq<SegView>)
    requires Linked(vs) && Last(vs).records != []
    ensures Linked(vs + [SegView(Last(vs).End(), [])]) && Flatten(vs + [SegView(Last(vs).End(), [])]) == Flatten(vs)
  {
    FlattenConcat(vs, [SegView(Last(vs).End(), [])]);
  }

  lemma DropFirstKeeps(vs: seq<SegView>)
    requires Linked(vs) && |vs| > 1
    ensures Linked(vs[1..]) && vs[1].base == vs[0].End() && vs[0].base < vs[1].base
    ensures Flatten(vs[1..]) == Flatten(vs)[vs[1].base - vs[0].base..]
  {
    assert vs[0 + 1].base == vs[0].End();
  }

  // Drop leading segments that end at or below `upTo`, but never the last one.
  function DropBelow(vs: seq<SegView>, upTo: LogIndex): seq<SegView> {
    if |vs| > 1 && vs[0].End() <= upTo then DropBelow(vs[1..], upTo) else vs
  }

  lemma {:induction false} DropBelowKeeps(vs: seq<SegView>, upTo: LogIndex)
    requires Linked(vs)
    ensures
      var vs' := DropBelow(vs, upTo);
      && Linked(vs') && Last(vs') == Last(vs) && (|vs'| == 1 || vs'[0].End() > upTo)
      && vs[0].base <= vs'[0].base <= Max(vs[0].base, upTo)
      && vs'[0].base - vs[0].base <= |Flatten(vs)|
      && Flatten(vs') == Flatten(vs)[vs'[0].base - vs[0].base..]
  {
    hide Linked, Flatten;
    NonEmpty(vs);
    WholeLength(vs);
    if |vs| > 1 && vs[0].End() <= upTo {
      DropFirstKeeps(vs);
      DropBelowKeeps(vs[1..], upTo);
      var vs' := DropBelow(vs[1..], upTo);
      NonEmpty(vs');
      WholeLength(vs[1..]);
      DropTwice(Flatten(vs), vs[1].base - vs[0].base, vs'[0].base - vs[1].base);
    } else {
      assert Flatten(vs)[0..] == Flatten(vs);
    }
  }

  lemma NonEmpty(vs: seq<SegView>)
    requires Linked(vs)
    ensures vs != []
  {
  }

  lemma DropTwice(rs: seq<Payload>, a: nat, b: nat)
    requires a + b <= |rs|
    ensures rs[a..][b..] == rs[a + b..]
  {
  }

  // The only segments past `n - 1` start above `keep`.
  ghost predicate AboveFrom(vs: seq<SegView>, n: nat, keep: LogIndex) {
    n < |vs| ==> vs[n].base > keep
  }

  // The segment a cut after `keep` falls into: the last that does not begin past it.
  function Straddled(vs: seq<SegView>, keep: LogIndex): (j: nat)
    requires vs != []
    ensures j < |vs|
  {
    if |vs| == 1 || Last(vs).base <= keep then |vs| - 1 else Straddled(vs[..|vs| - 1], keep)
  }

  lemma CutSegment(vs: seq<SegView>, n: nat, keep: LogIndex)
    requires Linked(vs) && 1 <= n <= |vs| && AboveFrom(vs, n, keep)
    requires vs[0].base <= keep + 1 <= Last(vs).End() && (n == 1 || vs[n - 1].base <= keep)
    ensures vs[n - 1].base <= keep + 1 <= vs[n - 1].End()
  {
    if n < |vs| { assert vs[n - 1 + 1].base == vs[n - 1].End(); }
  }

  // Cut segment `j` after index `keep` and drop every later one.
  function CutAt(vs: seq<SegView>, j: nat, keep: LogIndex): seq<SegView>
    requires j < |vs| && vs[j].base <= keep + 1 <= vs[j].End()
  {
    vs[..j] + [SegView(vs[j].base, vs[j].records[..keep + 1 - vs[j].base])]
  }

  lemma CutKeeps(vs: seq<SegView>, j: nat, keep: LogIndex)
    requires Linked(vs) && j < |vs| && vs[j].base <= keep + 1 <= vs[j].End()
    ensures vs[0].base <= vs[j].base && keep + 1 - vs[0].base <= |Flatten(vs)|
    ensures Linked(CutAt(vs, j, keep)) && Last(CutAt(vs, j, keep)).End() == keep + 1
    ensures CutAt(vs, j, keep)[0].base == vs[0].base
    ensures Flatten(CutAt(vs, j, keep)) == Flatten(vs)[..keep + 1 - vs[0].base]
  {
    var vs', n := CutAt(vs, j, keep), keep + 1 - vs[j].base;
    FlattenLength(vs, j);
    FlattenSplit(vs, j);
    FlattenSplit(vs', j);
    assert vs'[..j] == vs[..j] && vs'[j + 1..] == [];
    assert (Flatten(vs[..j]) + vs[j].records + Flatten(vs[j + 1..]))[..keep + 1 - vs[0].base]
        == Flatten(vs[..j]) + vs[j].records[..n];
  }

  lemma CutLength(vs: seq<SegView>, j: nat, kept: seq<Payload>)
    requires Linked(vs) && j < |vs|
    ensures |Flatten(vs[..j] + [SegView(vs[j].base, kept)])| == vs[j].base - vs[0].base + |kept|
  {
    var cut := vs[..j] + [SegView(vs[j].base, kept)];
    FlattenLength(vs, j);
    FlattenSplit(cut, j);
    assert cut[..j] == vs[..j] && cut[j + 1..] == [];
  }

  // Cutting segment `j` when only its first `len` records can be read: what is left is the
  // records up to the cut exactly when there were enough of them.
  lemma CutOutcome(vs: seq<SegView>, j: nat, keep: LogIndex, len: nat)
    requires Linked(vs) && j < |vs| && vs[j].base <= keep + 1 <= vs[j].End() && len <= |vs[j].records|
    ensures keep + 1 - vs[0].base <= |Flatten(vs)| && vs[0].base <= keep + 1
    ensures
      var n := keep + 1 - vs[j].base;
      var vs' := vs[..j] + [SegView(vs[j].base, vs[j].records[..Min(n, len)])];
      && (Flatten(vs') == Flatten(vs)[..keep + 1 - vs[0].base] <==> n <= len)
      && (n <= len ==> Linked(vs') && vs'[0].base == vs[0].base && Last(vs').End() == keep + 1)
  {
    hide Flatten, Linked;
    var n := keep + 1 - vs[j].base;
    CutKeeps(vs, j, keep);
    CutLength(vs, j, vs[j].records[..Min(n, len)]);
  }

  // One more segment is linked exactly when it starts where the last one ends.
  lemma LinkedMore(vs: seq<SegView>, v: SegView)
    requires Linked(vs)
    ensures Linked(vs + [v]) <==> Last(vs).records != [] && v.base == Last(vs).End()
  {
    var vs', k := vs + [v], |vs| - 1;
    if Linked(vs') { assert vs'[k].records != [] && vs'[k + 1].base == vs'[k].End(); }
    if Last(vs).records != [] && v.base == Last(vs).End() {
      forall i | 0 <= i < |vs'| - 1 ensures vs'[i].records != [] && vs'[i + 1].base == vs'[i].End() {
        if i < k { assert vs[i + 1].base == vs[i].End(); }
      }
    }
  }

  // Further records at the very end.
  function ExtendLast(vs: seq<SegView>, more: seq<Payload>): seq<SegView>
    requires vs != []
  {
    vs[..|vs| - 1] + [SegView(Last(vs).base, Last(vs).records + more)]
  }

  // A new segment behind `first` is linked exactly when all of `first` is there.
  lemma RotationLinked(vs: seq<SegView>, first: seq<Payload>, kept: seq<Payload>, rs: seq<Payload>)
    requires Linked(vs) && Last(vs).records + first != [] && kept <= first
    ensures Linked(ExtendLast(vs, kept))
    ensures Linked(ExtendLast(vs, kept) + [SegView(Last(vs).End() + |first|, rs)]) <==> kept == first
  {
    assert vs != [];
    hide Linked, ExtendLast, Flatten;
    ExtendLastKeeps(vs, kept);
    LinkedMore(ExtendLast(vs, kept), SegView(Last(vs).End() + |first|, rs));
    assert |kept| == |first| <==> kept == first;
  }

  lemma ExtendLastKeeps(vs: seq<SegView>, more: seq<Payload>)
    requires Linked(vs)
    ensures Linked(ExtendLast(vs, more)) && Flatten(ExtendLast(vs, more)) == Flatten(vs) + more
    ensures ExtendLast(vs, more)[0].base == vs[0].base
    ensures Last(ExtendLast(vs, more)) == SegView(Last(vs).base, Last(vs).records + more)
  {
    var j, vs' := |vs| - 1, ExtendLast(vs, more);
    hide Flatten;
    FlattenSnoc(vs, j);
    FlattenSnoc(vs', j);
    assert vs'[..j] == vs[..j] && vs'[..j + 1] == vs' && vs[..j + 1] == vs;
  }
}
