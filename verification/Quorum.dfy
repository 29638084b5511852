/**
  Majorities: the commit rule's choice of index, and the fact that two majorities of
  one membership always share a node.
*/
module Quorum {

  // How many of the values have reached `v`.
  function CountGE(ms: seq<nat>, v: nat): nat {
    if ms == [] then 0 else (if ms[0] >= v then 1 else 0) + CountGE(ms[1..], v)
  }

  // `v` is the greatest value that at least `q` of `ms` have reached.
  ghost predicate IsQuorumIndex(ms: seq<nat>, q: nat, v: nat) {
    && CountGE(ms, v) >= q
    && forall w: nat :: w > v ==> CountGE(ms, w) < q
  }

  ghost predicate Descending(s: seq<nat>) {
    forall i, j :: 0 <= i < j < |s| ==> s[i] >= s[j]
  }

  lemma {:induction false} CountBounds(ms: seq<nat>, v: nat, w: nat)
    requires v <= w
    ensures CountGE(ms, w) <= CountGE(ms, v) <= |ms|
    ensures CountGE(ms, 0) == |ms|
  {
    if ms != [] { CountBounds(ms[1..], v, w); }
  }

  // An upper bound no value exceeds.
  function Peak(ms: seq<nat>): (p: nat)
    ensures CountGE(ms, p + 1) == 0
  {
    if ms == [] then 0
    else
      var p := Peak(ms[1..]);
      CountBounds(ms[1..], p + 1, (if p < ms[0] then ms[0] else p) + 1);
      if p < ms[0] then ms[0] else p
  }

  function GreatestUpTo(ms: seq<nat>, q: nat, top: nat): (v: nat)
    requires 1 <= q <= |ms| && CountGE(ms, top + 1) < q
    ensures IsQuorumIndex(ms, q, v)
  {
    CountBounds(ms, 0, 0);
    if CountGE(ms, top) >= q then
      assert forall w: nat :: w > top ==> CountGE(ms, w) < q by {
        forall w: nat | w > top ensures CountGE(ms, w) < q { CountBounds(ms, top + 1, w); }
      }
      top
    else GreatestUpTo(ms, q, top - 1)
  }

  // The greatest value that at least `q` of `ms` have reached.
  function QuorumIndex(ms: seq<nat>, q: nat): (v: nat)
    requires 1 <= q <= |ms|
    ensures IsQuorumIndex(ms, q, v)
  {
    GreatestUpTo(ms, q, Peak(ms))
  }

  lemma {:induction false} CountConcat(a: seq<nat>, b: seq<nat>, v: nat)
    ensures CountGE(a + b, v) == CountGE(a, v) + CountGE(b, v)
  {
    if a == [] {
      assert a + b == b;
    } else {
      assert (a + b)[1..] == a[1..] + b;
      CountConcat(a[1..], b, v);
    }
  }

  lemma TakeOut(b: seq<nat>, x: nat) returns (front: seq<nat>, back: seq<nat>)
    requires x in b
    ensures b == front + [x] + back
    ensures multiset(front + back) == multiset(b) - multiset{x}
  {
    var i :| 0 <= i < |b| && b[i] == x;
    front, back := b[..i], b[i + 1..];
    assert b == front + [x] + back;
  }

  // Counting ignores the order of the values.
  lemma {:induction false} CountPermutation(a: seq<nat>, b: seq<nat>, v: nat)
    requires multiset(a) == multiset(b)
    ensures CountGE(a, v) == CountGE(b, v)
  {
    if a == [] {
      assert |multiset(b)| == 0;
    } else {
      assert a[0] in multiset(b);
      var front, back := TakeOut(b, a[0]);
      assert a == [a[0]] + a[1..];
      assert multiset(a[1..]) == multiset(a) - multiset{a[0]};
      CountPermutation(a[1..], front + back, v);
      CountConcat(front, back, v);
      CountConcat(front + [a[0]], back, v);
      CountConcat(front, [a[0]], v);
    }
  }

  lemma {:induction false} CountDescending(s: seq<nat>, v: nat, k: nat)
    requires Descending(s) && k <= |s|
    requires forall i :: 0 <= i < k ==> s[i] >= v
    requires forall i :: k <= i < |s| ==> s[i] < v
    ensures CountGE(s, v) == k
  {
    if s != [] {
      CountDescending(s[1..], v, if k == 0 then 0 else k - 1);
    }
  }

  // Position `q - 1` of any descending rearrangement holds the quorum index, and it is
  // the only value with that property.
  lemma SortedPick(ms: seq<nat>, sorted: seq<nat>, q: nat)
    requires multiset(ms) == multiset(sorted) && Descending(sorted)
    requires 1 <= q <= |sorted|
    ensures IsQuorumIndex(ms, q, sorted[q - 1])
    ensures forall v: nat :: IsQuorumIndex(ms, q, v) ==> v == sorted[q - 1]
  {
    var v := sorted[q - 1];
    var atLeastQ := ReachedBy(sorted, v, q);
    CountPermutation(ms, sorted, v);
    forall w: nat | w > v ensures CountGE(ms, w) < q {
      var k := ReachedBy(sorted, w, 0);
      CountPermutation(ms, sorted, w);
    }
  }

  // In a descending sequence the values that reach `v` are exactly its first `k`.
  lemma ReachedBy(s: seq<nat>, v: nat, atLeast: nat) returns (k: nat)
    requires Descending(s) && atLeast <= |s|
    requires atLeast > 0 ==> s[atLeast - 1] >= v
    ensures atLeast <= k <= |s| && CountGE(s, v) == k
    ensures k > 0 ==> s[k - 1] >= v
    ensures k < |s| ==> s[k] < v
  {
    k := atLeast;
    while k < |s| && s[k] >= v
      invariant atLeast <= k <= |s|
      invariant k > 0 ==> s[k - 1] >= v
    {
      k := k + 1;
    }
    CountDescending(s, v, k);
  }

  function Majority(n: nat): nat {
    n / 2 + 1
  }

  // A count is a majority exactly when it is more than half.
  lemma MajorityIff(n: nat, m: nat)
    ensures m >= Majority(n) <==> 2 * m > n
  {
  }

  lemma {:induction false} SubsetSize<T>(a: set<T>, b: set<T>)
    requires a <= b
    ensures |a| <= |b|
  {
    assert b == a + (b - a);
  }

  // Any two majorities of one membership share a node.
  lemma MajoritiesMeet<T>(members: set<T>, a: set<T>, b: set<T>) returns (w: T)
    requires a <= members && b <= members
    requires |a| >= Majority(|members|) && |b| >= Majority(|members|)
    ensures w in a && w in b
  {
    assert |a + b| == |a| + |b| - |a * b|;
    SubsetSize(a + b, members);
    w :| w in a * b;
  }

  lemma {:induction false} DistinctSize<T>(s: seq<T>)
    requires forall a, b :: 0 <= a < b < |s| ==> s[a] != s[b]
    ensures |set x | x in s| == |s|
  {
    if s != [] {
      DistinctSize(s[1..]);
      assert (set x | x in s) == {s[0]} + set x | x in s[1..];
    }
  }
}
