/**
  The splice, entry by entry and as a whole.
*/
module Splicing {
  import opened Types
  import opened RaftNode

  // What the loop does with one entry.
  function SpliceOne(entries: Entries, snap: LogIndex, e: LogEntry): Entries
    requires e.index <= snap + |entries| + 1
  {
    if Present(entries, snap, e) then entries else entries[..e.index - snap - 1] + [e]
  }

  // The program asserts that every entry it appends extends the log by exactly one.
  ghost predicate NeverGaps(entries: Entries, snap: LogIndex, es: Entries)
    decreases |es|
  {
    es == [] || (es[0].index <= snap + |entries| + 1 && NeverGaps(SpliceOne(entries, snap, es[0]), snap, es[1..]))
  }

  // For dense entries the assertion holds throughout the loop exactly when the first one
  // leaves no gap behind the log.
  lemma {:induction false} NeverGapsIff(entries: Entries, snap: LogIndex, first: LogIndex, es: Entries)
    requires es != [] && Contiguous(es, first)
    ensures NeverGaps(entries, snap, es) <==> first <= snap + |entries| + 1
    decreases |es|
  {
    if |es| > 1 && first <= snap + |entries| + 1 {
      NeverGapsIff(SpliceOne(entries, snap, es[0]), snap, first + 1, es[1..]);
    }
  }

  // The splice of a message is at least as long as the message says.
  lemma SpliceReaches(entries: Entries, snap: LogIndex, prev: LogIndex, es: Entries)
    requires Contiguous(entries, snap + 1) && Contiguous(es, prev + 1) && prev <= snap + |entries|
    ensures
      var k, r := Covered(entries, snap, es), Splice(entries, snap, prev, es);
      if k == |es| then r == entries
      else
        && snap <= prev + k <= snap + |entries|
        && r == entries[..prev + k - snap] + es[k..] && snap + |r| == prev + |es|
  {
    var k := Covered(entries, snap, es);
    if 0 < k < |es| { assert Present(entries, snap, es[k - 1]); }
  }

  lemma {:induction false} CoveredPrefix(entries: Entries, snap: LogIndex, es: Entries, m: nat)
    requires m <= |es|
    ensures Covered(entries, snap, es[..m]) == Min(m, Covered(entries, snap, es))
  {
    if m > 0 {
      assert es[..m][1..] == es[1..][..m - 1];
      CoveredPrefix(entries, snap, es[1..], m - 1);
    }
  }

  // While everything is covered the splice does nothing.
  lemma CoveredSnoc(entries: Entries, snap: LogIndex, prev: LogIndex, es: Entries, m: nat)
    requires Contiguous(entries, snap + 1) && Contiguous(es, prev + 1) && prev <= snap + |entries| && m < |es|
    ensures Covered(entries, snap, es[..m + 1]) == m + 1 ==>
      && Covered(entries, snap, es[..m]) == m
      && Splice(entries, snap, prev, es[..m]) == entries && Present(entries, snap, es[m])
  {
    CoveredPrefix(entries, snap, es, m);
    CoveredPrefix(entries, snap, es, m + 1);
  }

  // The loop computes the splice: one more entry of the message is one more step.
  lemma SpliceSnoc(entries: Entries, snap: LogIndex, prev: LogIndex, es: Entries, m: nat)
    requires Contiguous(entries, snap + 1) && Contiguous(es, prev + 1) && prev <= snap + |entries| && m < |es|
    ensures
      var r := Splice(entries, snap, prev, es[..m]);
      && es[m].index <= snap + |r| + 1
      && Splice(entries, snap, prev, es[..m + 1]) == SpliceOne(r, snap, es[m])
      && (Covered(entries, snap, es[..m]) < m ==> snap + |r| == prev + m && !Present(r, snap, es[m]))
  {
    hide Splice, Covered;
    var k := Covered(entries, snap, es);
    CoveredPrefix(entries, snap, es, m);
    CoveredPrefix(entries, snap, es, m + 1);
    SpliceReaches(entries, snap, prev, es[..m]);
    SpliceReaches(entries, snap, prev, es[..m + 1]);
    if k < m {
      assert es[..m + 1][k..] == es[..m][k..] + [es[m]];
    } else if k == m {
      assert es[..m + 1][k..] == [es[m]];
    }
  }

  // ---- without the assertion ----

  // What the loop does with one entry when the assertion is compiled out: an entry past the
  // end is appended all the same.
  function SpliceAnyway(entries: Entries, snap: LogIndex, es: Entries): Entries
    decreases |es|
  {
    if es == [] then entries
    else
      var r, e := SpliceAnyway(entries, snap, es[..|es| - 1]), es[|es| - 1];
      if Present(r, snap, e) then r
      else if e.index <= snap + |r| then r[..e.index - snap - 1] + [e]
      else r + [e]
  }

  lemma {:induction false} AnywayIsSplice(entries: Entries, snap: LogIndex, prev: LogIndex, es: Entries, m: nat)
    requires Contiguous(entries, snap + 1) && Contiguous(es, prev + 1) && prev <= snap + |entries| && m <= |es|
    ensures SpliceAnyway(entries, snap, es[..m]) == Splice(entries, snap, prev, es[..m])
    decreases m
  {
    hide Splice, Covered;
    if m == 0 {
      SpliceReaches(entries, snap, prev, es[..0]);
    } else {
      AnywayIsSplice(entries, snap, prev, es, m - 1);
      SpliceSnoc(entries, snap, prev, es, m - 1);
      assert es[..m][..m - 1] == es[..m - 1];
    }
  }

  lemma {:induction false} GapAppends(entries: Entries, snap: LogIndex, first: LogIndex, es: Entries, m: nat)
    requires Contiguous(es, first) && first > snap + |entries| + 1 && m <= |es|
    ensures SpliceAnyway(entries, snap, es[..m]) == entries + es[..m]
    decreases m
  {
    if m > 0 {
      GapAppends(entries, snap, first, es, m - 1);
      assert es[..m][..m - 1] == es[..m - 1] && es[..m] == es[..m - 1] + [es[m - 1]];
    }
  }

  // The log stays dense if and only if the first entry leaves no gap; it is then the splice,
  // and otherwise the whole message lands behind the log.
  lemma DenseAnywayIff(entries: Entries, snap: LogIndex, first: LogIndex, es: Entries)
    requires Contiguous(entries, snap + 1) && es != [] && first >= 1 && Contiguous(es, first)
    ensures Contiguous(SpliceAnyway(entries, snap, es), snap + 1) <==> first <= snap + |entries| + 1
    ensures
      SpliceAnyway(entries, snap, es) ==
        if first <= snap + |entries| + 1 then Splice(entries, snap, first - 1, es) else entries + es
  {
    hide SpliceAnyway, Splice;
    assert es[..|es|] == es;
    if first <= snap + |entries| + 1 {
      AnywayIsSplice(entries, snap, first - 1, es, |es|);
    } else {
      GapAppends(entries, snap, first, es, |es|);
      assert (entries + es)[|entries|].index == first;
    }
  }

  // ---- cut off on the way ----

  // The splice cut off on the way: the log in front of the first missing entry and a prefix of
  // the rest of the message, as a torn append leaves them, or nothing changed yet.
  lemma TornForm(entries: Entries, snap: LogIndex, prev: LogIndex, es: Entries, k: nat)
    requires Contiguous(entries, snap + 1) && Contiguous(es, prev + 1) && prev <= snap + |entries| && k <= |es| + 1
    ensures
      var c, r := Covered(entries, snap, es), TornSplice(entries, snap, prev, es, k);
      if k <= c || c == |es| then r == entries
      else snap <= prev + c <= snap + |entries| && r == entries[..prev + c - snap] + es[c..k - 1]
  {
    var c := Covered(entries, snap, es);
    if 0 < c < |es| { assert Present(entries, snap, es[c - 1]); }
  }

  // Its last stretch is what an append torn after `j` entries leaves behind the truncated log.
  lemma TornSpliceIsTornAppend(entries: Entries, snap: LogIndex, prev: LogIndex, es: Entries, j: nat)
    requires Contiguous(entries, snap + 1) && Contiguous(es, prev + 1) && prev <= snap + |entries|
    requires Covered(entries, snap, es) + j <= |es| && Covered(entries, snap, es) < |es|
    ensures
      var c := Covered(entries, snap, es);
      && snap <= prev + c <= snap + |entries|
      && TornSplice(entries, snap, prev, es, c + 1 + j) == entries[..prev + c - snap] + es[c..][..j]
  {
    var c := Covered(entries, snap, es);
    TornForm(entries, snap, prev, es, c + 1 + j);
    assert es[c..c + j] == es[c..][..j];
  }

  // ---- what the splice achieves ----

  // Nothing changes if and only if every entry is already present.
  lemma SpliceUnchangedIff(entries: Entries, snap: LogIndex, prev: LogIndex, es: Entries)
    requires Contiguous(entries, snap + 1) && Contiguous(es, prev + 1) && prev <= snap + |entries|
    ensures Splice(entries, snap, prev, es) == entries <==> forall e :: e in es ==> Present(entries, snap, e)
  {
    var k, r := Covered(entries, snap, es), Splice(entries, snap, prev, es);
    SpliceReaches(entries, snap, prev, es);
    if k < |es| {
      assert es[k] in es && r[prev + k - snap] == es[k];
    }
  }

  // After the splice every entry of the message is present.
  lemma SpliceStores(entries: Entries, snap: LogIndex, prev: LogIndex, es: Entries)
    requires Contiguous(entries, snap + 1) && Contiguous(es, prev + 1) && prev <= snap + |entries|
    ensures forall e :: e in es ==> Present(Splice(entries, snap, prev, es), snap, e)
  {
    var k, r := Covered(entries, snap, es), Splice(entries, snap, prev, es);
    SpliceReaches(entries, snap, prev, es);
    forall e | e in es ensures Present(r, snap, e) {
      var j :| 0 <= j < |es| && es[j] == e;
      if j < k {
        assert Present(entries, snap, es[j]);
      } else {
        assert r[prev + j - snap] == es[j];
      }
    }
  }

  // Redelivery, of the same message or of any part of it, never shrinks the log: it changes
  // nothing at all.
  lemma RedeliveryChangesNothing(entries: Entries, snap: LogIndex, prev: LogIndex, es: Entries, from: nat, to: nat)
    requires Contiguous(entries, snap + 1) && Contiguous(es, prev + 1) && prev <= snap + |entries| && from <= to <= |es|
    ensures
      var r := Splice(entries, snap, prev, es);
      prev + from <= snap + |r| && Contiguous(es[from..to], prev + from + 1)
      && Splice(r, snap, prev + from, es[from..to]) == r
  {
    var r := Splice(entries, snap, prev, es);
    SpliceStores(entries, snap, prev, es);
    forall e | e in es[from..to] ensures Present(r, snap, e) {
      assert e in es;
    }
    SpliceUnchangedIff(r, snap, prev + from, es[from..to]);
  }
}
