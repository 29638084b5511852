/**
  The commit rule's sort. The program uses a library sort that promises only a descending
  rearrangement; an insertion sort provides one.
*/
module Sorting {
  import opened Quorum

  // Where `x` goes: behind everything greater.
  function Position(s: seq<nat>, x: nat): (i: nat)
    requires Descending(s)
    ensures i <= |s|
    ensures forall j :: 0 <= j < |s| ==> if j < i then s[j] > x else s[j] <= x
  {
    if s == [] || s[0] <= x then 0 else 1 + Position(s[1..], x)
  }

  function Insert(s: seq<nat>, x: nat): (r: seq<nat>)
    requires Descending(s)
    ensures Descending(r) && multiset(r) == multiset(s) + multiset{x}
  {
    var i := Position(s, x);
    InsertAt(s, i, x);
    s[..i] + [x] + s[i..]
  }

  lemma InsertAt(s: seq<nat>, i: nat, x: nat)
    requires Descending(s) && i <= |s|
    requires forall j :: 0 <= j < |s| ==> if j < i then s[j] > x else s[j] <= x
    ensures Descending(s[..i] + [x] + s[i..]) && multiset(s[..i] + [x] + s[i..]) == multiset(s) + multiset{x}
  {
    var r := s[..i] + [x] + s[i..];
    forall a, b | 0 <= a < b < |r| ensures r[a] >= r[b] {
      assert r[a] == if a < i then s[a] else if a == i then x else s[a - 1];
      assert r[b] == if b < i then s[b] else if b == i then x else s[b - 1];
    }
    SplitCounts(s, i);
  }

  lemma SplitCounts(s: seq<nat>, i: nat)
    requires i <= |s|
    ensures multiset(s) == multiset(s[..i]) + multiset(s[i..])
  {
    assert s == s[..i] + s[i..];
  }

  function SortDescending(ms: seq<nat>): (r: seq<nat>)
    ensures Descending(r) && multiset(r) == multiset(ms)
  {
    if ms == [] then []
    else
      assert ms == [ms[0]] + ms[1..];
      Insert(SortDescending(ms[1..]), ms[0])
  }
}
