/** Option lists built from the truthy values of a column. The resource forecast
    drops falsy values before de-duplicating; the work listing folds the test into
    the de-duplicating filter itself, where findIndex still searches the unfiltered
    array. Both give the same list. */
module FilterOptions {
  import opened JsValues
  import opened Sequences
  import opened Distinct

  /** values.filter(v => v) */
  function TruthyOnly(s: seq<JsValue>): seq<JsValue>
  {
    Filter(Truthy, s)
  }

  /** values.filter(v => v).filter((ele, index, arr) => arr.findIndex(t => t === ele) === index) */
  function DistinctTruthy(s: seq<JsValue>): seq<JsValue>
  {
    KeepFirst(TruthyOnly(s))
  }

  /** What arr.filter((ele, index, arr) => arr.findIndex(t => t === ele) === index && ele)
      keeps of the positions before n. */
  function KeepFirstTruthyUpTo(s: seq<JsValue>, n: nat): seq<JsValue>
    requires n <= |s|
  {
    if n == 0 then []
    else KeepFirstTruthyUpTo(s, n - 1) + (if IsFirst(s, n - 1) && Truthy(s[n - 1]) then [s[n - 1]] else [])
  }

  /** arr.filter((ele, index, arr) => arr.findIndex(t => t === ele) === index && ele) */
  function KeepFirstTruthy(s: seq<JsValue>): seq<JsValue>
  {
    KeepFirstTruthyUpTo(s, |s|)
  }

  lemma {:induction false} KeepFirstTruthyUpToFilters(s: seq<JsValue>, n: nat)
    requires n <= |s|
    ensures KeepFirstTruthyUpTo(s, n) == TruthyOnly(KeepFirstUpTo(s, n))
  {
    if n > 0 {
      KeepFirstTruthyUpToFilters(s, n - 1);
      var prev := KeepFirstUpTo(s, n - 1);
      if IsFirst(s, n - 1) {
        var x := s[n - 1];
        assert KeepFirstUpTo(s, n) == prev + [x];
        FilterSnoc(Truthy, prev, x);
      } else {
        assert KeepFirstUpTo(s, n) == prev + [];
        assert prev + [] == prev;
        assert KeepFirstTruthyUpTo(s, n) == KeepFirstTruthyUpTo(s, n - 1) + [];
      }
    }
  }

  /** The two ways of writing the truthy option list agree. */
  lemma KeepFirstTruthyIsDistinctTruthy(s: seq<JsValue>)
    ensures KeepFirstTruthy(s) == DistinctTruthy(s)
  {
    KeepFirstTruthyUpToFilters(s, |s|);
    KeepFirstFilter(Truthy, s);
  }

  lemma OrderedSubsequence<T>(a: seq<T>, b: seq<T>, s: seq<T>)
    requires IsSubsequence(a, b)
    requires InFirstOccurrenceOrder(b, s)
    ensures InFirstOccurrenceOrder(a, s)
  {
    var idx: seq<nat> :| SubsequenceAt(a, b, idx);
    assert forall k :: 0 <= k < |a| ==> a[k] == b[idx[k]];
  }

  /** A truthy option list holds every truthy value of the input once and nothing
      else, in order of first occurrence, as a subsequence of the input. */
  lemma DistinctTruthySpec(s: seq<JsValue>)
    ensures NoDuplicates(DistinctTruthy(s))
    ensures forall x :: x in DistinctTruthy(s) <==> Truthy(x) && x in s
    ensures InFirstOccurrenceOrder(DistinctTruthy(s), s)
    ensures IsSubsequence(DistinctTruthy(s), s)
  {
    var k := KeepFirst(s);
    KeepFirstFilter(Truthy, s);
    KeepFirstMembers(s);
    FilterMembers(Truthy, k);
    KeepFirstOrder(s);
    FilterSubsequence(Truthy, k);
    OrderedSubsequence(Filter(Truthy, k), k, s);
    KeepFirstSubsequence(s);
    SubsequenceTransitive(Filter(Truthy, k), k, s);
  }
}
