/** List operations the screens are written with: JavaScript's Array.prototype.filter,
    map and findIndex, and what it means for one list to be an order-preserving
    sub-list of another. */
module Sequences {

  /** s.filter(p): the elements that satisfy p, in their original order. */
  function Filter<T>(p: T -> bool, s: seq<T>): (r: seq<T>)
    ensures |r| <= |s|
  {
    if s == [] then [] else (if p(s[0]) then [s[0]] else []) + Filter(p, s[1..])
  }

  /** s.map(f). */
  function Map<T, U>(f: T -> U, s: seq<T>): (r: seq<U>)
    ensures |r| == |s|
    ensures forall i :: 0 <= i < |s| ==> r[i] == f(s[i])
  {
    if s == [] then [] else [f(s[0])] + Map(f, s[1..])
  }

  /** s.findIndex(t => t === x): the first position holding x, or -1 when there is none. */
  function FindIndex<T(==)>(s: seq<T>, x: T): (r: int)
    ensures -1 <= r < |s|
    ensures r == -1 <==> x !in s
    ensures 0 <= r ==> s[r] == x
    ensures forall j :: 0 <= j < r ==> s[j] != x
  {
    if s == [] then -1
    else if s[0] == x then 0
    else
      var r := FindIndex(s[1..], x);
      if r == -1 then -1 else r + 1
  }

  /** idx lists, in increasing order, positions of s whose elements spell out r. */
  ghost predicate SubsequenceAt<T>(r: seq<T>, s: seq<T>, idx: seq<nat>)
  {
    && |idx| == |r|
    && (forall k :: 0 <= k < |idx| ==> idx[k] < |s| && r[k] == s[idx[k]])
    && (forall k, l :: 0 <= k < l < |idx| ==> idx[k] < idx[l])
  }

  /** r is obtained from s by deleting elements, without reordering what remains. */
  ghost predicate IsSubsequence<T>(r: seq<T>, s: seq<T>)
  {
    exists idx :: SubsequenceAt(r, s, idx)
  }

  /** Adds one to every position: the witness moved past a new first element. */
  function Shift(idx: seq<nat>): (r: seq<nat>)
    ensures |r| == |idx|
    ensures forall k :: 0 <= k < |idx| ==> r[k] == idx[k] + 1
  {
    if idx == [] then [] else [idx[0] + 1] + Shift(idx[1..])
  }

  lemma SubsequenceCons<T>(r: seq<T>, s: seq<T>, x: T)
    requires IsSubsequence(r, s)
    ensures IsSubsequence(r, [x] + s)
    ensures IsSubsequence([x] + r, [x] + s)
  {
    var idx: seq<nat> :| SubsequenceAt(r, s, idx);
    var shifted := Shift(idx);
    forall k | 0 <= k < |idx|
      ensures shifted[k] < |[x] + s| && r[k] == ([x] + s)[shifted[k]]
    {
      assert ([x] + s)[idx[k] + 1] == s[idx[k]];
    }
    assert SubsequenceAt(r, [x] + s, shifted);
    var cons: seq<nat> := [0] + shifted;
    forall k | 0 <= k < |cons|
      ensures cons[k] < |[x] + s| && ([x] + r)[k] == ([x] + s)[cons[k]]
    {
      if k > 0 {
        assert cons[k] == shifted[k - 1] && ([x] + r)[k] == r[k - 1];
      }
    }
    assert SubsequenceAt([x] + r, [x] + s, cons);
  }

  lemma SubsequenceSnoc<T>(r: seq<T>, s: seq<T>, x: T)
    requires IsSubsequence(r, s)
    ensures IsSubsequence(r, s + [x])
    ensures IsSubsequence(r + [x], s + [x])
  {
    var idx: seq<nat> :| SubsequenceAt(r, s, idx);
    assert SubsequenceAt(r, s + [x], idx);
    assert SubsequenceAt(r + [x], s + [x], idx + [|s|]);
  }

  lemma SubsequenceTransitive<T>(a: seq<T>, b: seq<T>, c: seq<T>)
    requires IsSubsequence(a, b) && IsSubsequence(b, c)
    ensures IsSubsequence(a, c)
  {
    var ab: seq<nat> :| SubsequenceAt(a, b, ab);
    var bc: seq<nat> :| SubsequenceAt(b, c, bc);
    var ac := seq(|ab|, k requires 0 <= k < |ab| => bc[ab[k]]);
    assert SubsequenceAt(a, c, ac);
  }

  lemma EmptySubsequence<T>(s: seq<T>)
    ensures IsSubsequence([], s)
  {
    assert SubsequenceAt([], s, []);
  }

  /** Membership after filtering: exactly the elements of s that satisfy p. */
  lemma {:induction false} FilterMembers<T>(p: T -> bool, s: seq<T>)
    ensures forall x :: x in Filter(p, s) <==> x in s && p(x)
  {
    if s != [] {
      FilterMembers(p, s[1..]);
      assert s == [s[0]] + s[1..];
    }
  }

  /** Filtering a concatenation filters each part. */
  lemma {:induction false} FilterAppend<T>(p: T -> bool, a: seq<T>, b: seq<T>)
    ensures Filter(p, a + b) == Filter(p, a) + Filter(p, b)
  {
    if a == [] {
      assert a + b == b;
    } else {
      var head: seq<T> := if p(a[0]) then [a[0]] else [];
      assert (a + b)[0] == a[0];
      assert (a + b)[1..] == a[1..] + b;
      assert Filter(p, a + b) == head + Filter(p, a[1..] + b);
      FilterAppend(p, a[1..], b);
      assert Filter(p, a) == head + Filter(p, a[1..]);
    }
  }

  /** Filtering a list extended by one element. */
  lemma FilterSnoc<T>(p: T -> bool, a: seq<T>, x: T)
    ensures Filter(p, a + [x]) == Filter(p, a) + if p(x) then [x] else []
  {
    FilterAppend(p, a, [x]);
    assert [x][1..] == [];
  }

  /** Filtering keeps the original order: the result is a subsequence of the input. */
  lemma {:induction false} FilterSubsequence<T>(p: T -> bool, s: seq<T>)
    ensures IsSubsequence(Filter(p, s), s)
  {
    if s == [] {
      EmptySubsequence(s);
    } else {
      FilterSubsequence(p, s[1..]);
      SubsequenceCons(Filter(p, s[1..]), s[1..], s[0]);
      assert s == [s[0]] + s[1..];
      if p(s[0]) {
        assert Filter(p, s) == [s[0]] + Filter(p, s[1..]);
      } else {
        assert Filter(p, s) == Filter(p, s[1..]);
      }
    }
  }

  /** A filter and its complement split s: every element lands in exactly one of
      the two results, so their sizes and their multisets add up to those of s. */
  lemma {:induction false} FilterSplit<T>(p: T -> bool, q: T -> bool, s: seq<T>)
    requires forall x :: q(x) <==> !p(x)
    ensures |Filter(p, s)| + |Filter(q, s)| == |s|
    ensures multiset(Filter(p, s)) + multiset(Filter(q, s)) == multiset(s)
  {
    if s != [] {
      FilterSplit(p, q, s[1..]);
      assert s == [s[0]] + s[1..];
    }
  }

  /** Mapping after filtering on the mapped value is filtering after mapping
      (rows.filter(r => f(r)).map(r => f(r)) is rows.map(f).filter(v => v)). */
  lemma {:induction false} MapFilter<T, U>(f: T -> U, p: U -> bool, q: T -> bool, s: seq<T>)
    requires forall x :: q(x) <==> p(f(x))
    ensures Map(f, Filter(q, s)) == Filter(p, Map(f, s))
  {
    if s != [] {
      MapFilter(f, p, q, s[1..]);
      var head: seq<T> := if q(s[0]) then [s[0]] else [];
      MapAppend(f, head, Filter(q, s[1..]));
    }
  }

  lemma {:induction false} MapAppend<T, U>(f: T -> U, a: seq<T>, b: seq<T>)
    ensures Map(f, a + b) == Map(f, a) + Map(f, b)
  {
    assert |Map(f, a + b)| == |Map(f, a) + Map(f, b)|;
    forall i | 0 <= i < |a + b|
      ensures Map(f, a + b)[i] == (Map(f, a) + Map(f, b))[i]
    {
      if i < |a| {
        assert (a + b)[i] == a[i];
      } else {
        assert (a + b)[i] == b[i - |a|];
      }
    }
  }
}
