/** First-occurrence de-duplication, the idiom every filter-option list of the
    screens is built with:
      arr.filter((ele, index, arr) => arr.findIndex(t => t === ele) === index)
    An element survives exactly when its own position is the first position of its
    value. KeepFirst models that filter as written; Dedup is the textbook
    left-to-right scan with a "seen" list, kept as an independent reference. */
module Distinct {
  import opened Sequences

  ghost predicate NoDuplicates<T>(r: seq<T>)
  {
    forall i, j :: 0 <= i < j < |r| ==> r[i] != r[j]
  }

  /** Every element of r occurs in s, and r lists them by increasing position of
      their first occurrence in s. */
  ghost predicate InFirstOccurrenceOrder<T>(r: seq<T>, s: seq<T>)
  {
    && (forall k :: 0 <= k < |r| ==> r[k] in s)
    && (forall k, l :: 0 <= k < l < |r| ==> FindIndex(s, r[k]) < FindIndex(s, r[l]))
  }

  /** The filter's test at position i: arr.findIndex(t => t === arr[i]) === i. */
  predicate IsFirst<T(==)>(s: seq<T>, i: nat)
    requires i < |s|
  {
    FindIndex(s, s[i]) == i
  }

  /** What the filter keeps of the positions before n (the whole array is still
      the one findIndex searches). */
  function KeepFirstUpTo<T(==)>(s: seq<T>, n: nat): (r: seq<T>)
    requires n <= |s|
    ensures |r| <= n
  {
    if n == 0 then []
    else KeepFirstUpTo(s, n - 1) + (if IsFirst(s, n - 1) then [s[n - 1]] else [])
  }

  /** arr.filter((ele, index, arr) => arr.findIndex(t => t === ele) === index) */
  function KeepFirst<T(==)>(s: seq<T>): (r: seq<T>)
    ensures |r| <= |s|
  {
    KeepFirstUpTo(s, |s|)
  }

  /** Reference de-duplication: scan left to right, appending each element not yet
      in the output. */
  function Dedup<T(==)>(s: seq<T>): seq<T>
  {
    if s == [] then []
    else
      var d := Dedup(s[..|s| - 1]);
      if s[|s| - 1] in d then d else d + [s[|s| - 1]]
  }

  lemma {:induction false} KeepFirstUpToOrdered<T>(s: seq<T>, n: nat)
    requires n <= |s|
    ensures InFirstOccurrenceOrder(KeepFirstUpTo(s, n), s)
    ensures forall k :: 0 <= k < |KeepFirstUpTo(s, n)| ==> FindIndex(s, KeepFirstUpTo(s, n)[k]) < n
  {
    if n > 0 {
      KeepFirstUpToOrdered(s, n - 1);
      var prev := KeepFirstUpTo(s, n - 1);
      if IsFirst(s, n - 1) {
        var r := prev + [s[n - 1]];
        assert KeepFirstUpTo(s, n) == r;
        assert forall k :: 0 <= k < |prev| ==> r[k] == prev[k];
      } else {
        assert KeepFirstUpTo(s, n) == prev;
      }
    }
  }

  lemma {:induction false} KeepFirstUpToCovers<T>(s: seq<T>, n: nat)
    requires n <= |s|
    ensures forall i :: 0 <= i < n ==> s[i] in KeepFirstUpTo(s, n)
  {
    if n > 0 {
      KeepFirstUpToCovers(s, n - 1);
      var prev := KeepFirstUpTo(s, n - 1);
      var r := KeepFirstUpTo(s, n);
      var tail := if IsFirst(s, n - 1) then [s[n - 1]] else [];
      assert r == prev + tail;
      forall i | 0 <= i < n
        ensures s[i] in r
      {
        if i < n - 1 {
          assert s[i] in prev;
        } else if IsFirst(s, n - 1) {
          assert r[|prev|] == s[i];
        } else {
          var j := FindIndex(s, s[n - 1]);
          assert 0 <= j < n - 1 && s[j] == s[i];
          assert s[j] in prev;
        }
      }
    }
  }

  lemma {:induction false} KeepFirstUpToMembers<T>(s: seq<T>, n: nat)
    requires n <= |s|
    ensures forall x :: x in KeepFirstUpTo(s, n) <==> x in s[..n]
  {
    KeepFirstUpToOrdered(s, n);
    KeepFirstUpToCovers(s, n);
    var r := KeepFirstUpTo(s, n);
    forall x | x in r
      ensures x in s[..n]
    {
      var k :| 0 <= k < |r| && r[k] == x;
      var j := FindIndex(s, x);
      assert s[..n][j] == x;
    }
    forall x | x in s[..n]
      ensures x in r
    {
      var i :| 0 <= i < n && s[..n][i] == x;
      assert s[i] == x;
    }
  }

  /** The filter keeps every value of the input: x is an option iff x occurs. */
  lemma KeepFirstMembers<T>(s: seq<T>)
    ensures forall x :: x in KeepFirst(s) <==> x in s
  {
    KeepFirstUpToMembers(s, |s|);
    assert s[..|s|] == s;
  }

  /** The filter lists values by their first occurrence in the input. */
  lemma KeepFirstOrder<T>(s: seq<T>)
    ensures InFirstOccurrenceOrder(KeepFirst(s), s)
  {
    KeepFirstUpToOrdered(s, |s|);
  }

  /** No value appears twice among the options. */
  lemma KeepFirstNoDuplicates<T>(s: seq<T>)
    ensures NoDuplicates(KeepFirst(s))
  {
    KeepFirstUpToOrdered(s, |s|);
  }

  lemma {:induction false} KeepFirstUpToSubsequence<T>(s: seq<T>, n: nat)
    requires n <= |s|
    ensures IsSubsequence(KeepFirstUpTo(s, n), s[..n])
  {
    if n == 0 {
      EmptySubsequence(s[..0]);
    } else {
      var prev := KeepFirstUpTo(s, n - 1);
      KeepFirstUpToSubsequence(s, n - 1);
      assert s[..n] == s[..n - 1] + [s[n - 1]];
      SubsequenceSnoc(prev, s[..n - 1], s[n - 1]);
      if IsFirst(s, n - 1) {
        assert KeepFirstUpTo(s, n) == prev + [s[n - 1]];
      } else {
        assert KeepFirstUpTo(s, n) == prev + [];
        assert prev + [] == prev;
      }
    }
  }

  /** The options are the input with elements deleted, never reordered. */
  lemma KeepFirstSubsequence<T>(s: seq<T>)
    ensures IsSubsequence(KeepFirst(s), s)
  {
    KeepFirstUpToSubsequence(s, |s|);
    assert s[..|s|] == s;
  }

  lemma HeadIsMember<T>(b: seq<T>)
    ensures b != [] ==> b[0] in b
  {
  }

  lemma OrderTail<T>(a: seq<T>, s: seq<T>)
    requires a != [] && InFirstOccurrenceOrder(a, s)
    ensures InFirstOccurrenceOrder(a[1..], s)
  {
    assert forall k :: 0 <= k < |a| - 1 ==> a[1..][k] == a[k + 1];
  }

  /** Past an equal head, the tails of two lists in first-occurrence order of s
      hold the same elements when the whole lists do (one direction). */
  lemma TailMembers<T>(a: seq<T>, b: seq<T>, s: seq<T>)
    requires forall x :: x in a <==> x in b
    requires InFirstOccurrenceOrder(a, s)
    requires a != [] && b != [] && a[0] == b[0]
    ensures forall x :: x in a[1..] ==> x in b[1..]
  {
    forall x | x in a[1..]
      ensures x in b[1..]
    {
      var k :| 1 <= k < |a| && a[k] == x;
      assert FindIndex(s, a[0]) < FindIndex(s, a[k]);
      assert x in a;
      var m :| 0 <= m < |b| && b[m] == x;
      assert m != 0;
      assert b[1..][m - 1] == x;
    }
  }

  /** Two duplicate-free lists with the same elements, both in first-occurrence
      order of s, are equal. */
  lemma {:induction false} FirstOccurrenceOrderUnique<T>(a: seq<T>, b: seq<T>, s: seq<T>)
    requires forall x :: x in a <==> x in b
    requires InFirstOccurrenceOrder(a, s) && InFirstOccurrenceOrder(b, s)
    ensures a == b
    decreases |a|
  {
    if a == [] {
      HeadIsMember(b);
    } else {
      assert a[0] in b;
      var j :| 0 <= j < |b| && b[j] == a[0];
      assert b[0] in a;
      var i :| 0 <= i < |a| && a[i] == b[0];
      assert a[0] == b[0];
      TailMembers(a, b, s);
      TailMembers(b, a, s);
      OrderTail(a, s);
      OrderTail(b, s);
      FirstOccurrenceOrderUnique(a[1..], b[1..], s);
    }
  }

  /** The options are determined by the three properties: any list holding exactly
      the input's values, in order of first occurrence, is the filter's result. */
  lemma KeepFirstCharacterized<T>(s: seq<T>, r: seq<T>)
    requires forall x :: x in r <==> x in s
    requires InFirstOccurrenceOrder(r, s)
    ensures r == KeepFirst(s)
  {
    KeepFirstMembers(s);
    KeepFirstOrder(s);
    FirstOccurrenceOrderUnique(r, KeepFirst(s), s);
  }

  lemma {:induction false} DedupMembers<T>(s: seq<T>)
    ensures forall x :: x in Dedup(s) <==> x in s
  {
    if s != [] {
      DedupMembers(s[..|s| - 1]);
      assert s == s[..|s| - 1] + [s[|s| - 1]];
    }
  }

  lemma {:induction false} KeepFirstUpToIsDedup<T>(s: seq<T>, n: nat)
    requires n <= |s|
    ensures KeepFirstUpTo(s, n) == Dedup(s[..n])
  {
    if n > 0 {
      KeepFirstUpToIsDedup(s, n - 1);
      assert s[..n][..n - 1] == s[..n - 1];
      assert s[..n][n - 1] == s[n - 1];
      KeepFirstUpToMembers(s, n - 1);
      if IsFirst(s, n - 1) {
        assert s[n - 1] !in s[..n - 1];
      } else {
        var j := FindIndex(s, s[n - 1]);
        assert s[..n - 1][j] == s[n - 1];
      }
    }
  }

  /** The findIndex filter computes the same list as the seen-list scan. */
  lemma KeepFirstIsDedup<T>(s: seq<T>)
    ensures KeepFirst(s) == Dedup(s)
  {
    KeepFirstUpToIsDedup(s, |s|);
    assert s[..|s|] == s;
  }

  lemma {:induction false} DedupFilter<T>(p: T -> bool, s: seq<T>)
    ensures Dedup(Filter(p, s)) == Filter(p, Dedup(s))
  {
    if s != [] {
      var a, x := s[..|s| - 1], s[|s| - 1];
      assert s == a + [x];
      DedupFilter(p, a);
      FilterAppend(p, a, [x]);
      FilterAppend(p, Dedup(a), [x]);
      DedupMembers(a);
      FilterMembers(p, Dedup(a));
      var fa := Filter(p, a);
      if p(x) {
        assert Filter(p, [x]) == [x];
        assert Filter(p, s) == fa + [x];
        assert (fa + [x])[..|fa + [x]| - 1] == fa;
        DedupMembers(fa);
        FilterMembers(p, a);
      } else {
        assert Filter(p, [x]) == [];
        assert Filter(p, s) == fa;
      }
    }
  }

  /** De-duplicating and filtering by a property of the value commute: dropping
      values before or after the findIndex filter gives the same list. */
  lemma KeepFirstFilter<T>(p: T -> bool, s: seq<T>)
    ensures KeepFirst(Filter(p, s)) == Filter(p, KeepFirst(s))
  {
    KeepFirstIsDedup(s);
    KeepFirstIsDedup(Filter(p, s));
    DedupFilter(p, s);
  }
}
