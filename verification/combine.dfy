/**
 * Source combination: the element-wise sum of several DAU (or install)
 * series, one per acquisition source.
 */
module SourceCombiner {

  /** True when every source is at least as long as the first one. */
  predicate CoversFirst(sources: seq<seq<real>>)
  {
    forall k :: 0 <= k < |sources| ==> |sources[0]| <= |sources[k]|
  }

  /** True when every source has exactly `n` days. */
  predicate AllOfLength(sources: seq<seq<real>>, n: nat)
  {
    forall k :: 0 <= k < |sources| ==> |sources[k]| == n
  }

  /** True when every source has a day at index `i`. */
  predicate Reaches(sources: seq<seq<real>>, i: nat)
  {
    forall s :: s in sources ==> i < |s|
  }

  /** Day `i` of every source, added in source order. */
  function ColumnSum(sources: seq<seq<real>>, i: nat): real
    requires Reaches(sources, i)
  {
    if sources == [] then 0.0
    else ColumnSum(sources[..|sources| - 1], i) + sources[|sources| - 1][i]
  }

  /**
   * The combined series: no sources give the empty series; otherwise it is
   * as long as the first source and day `i` is the sum of day `i` of every
   * source. Sources longer than the first are read only up to its length.
   */
  method CombineSources(sources: seq<seq<real>>) returns (total: seq<real>)
    requires CoversFirst(sources)
    ensures sources == [] ==> total == []
    ensures sources != [] ==> |total| == |sources[0]|
    ensures forall i :: 0 <= i < |total| ==> total[i] == ColumnSum(sources, i)
  {
    if sources == [] {
      return [];
    }
    var days := |sources[0]|;
    total := [];
    for dayIdx := 0 to days
      invariant |total| == dayIdx
      invariant forall i :: 0 <= i < dayIdx ==> total[i] == ColumnSum(sources, i)
    {
      var daySum := 0.0;
      for k := 0 to |sources|
        invariant daySum == ColumnSum(sources[..k], dayIdx)
      {
        assert sources[..k + 1][..k] == sources[..k];
        daySum := daySum + sources[k][dayIdx];
      }
      assert sources[..|sources|] == sources;
      total := total + [daySum];
    }
  }

  /** Removing source `j` from the sum removes exactly its own day-`i` value. */
  lemma {:induction false} ColumnSumWithout(sources: seq<seq<real>>, j: nat, i: nat)
    requires j < |sources| && Reaches(sources, i)
    ensures Reaches(sources[..j] + sources[j + 1..], i)
    ensures ColumnSum(sources, i) == ColumnSum(sources[..j] + sources[j + 1..], i) + sources[j][i]
  {
    var n := |sources|;
    var rest := sources[..j] + sources[j + 1..];
    assert forall s :: s in rest ==> s in sources;
    if j == n - 1 {
      assert rest == sources[..n - 1];
    } else {
      var init := sources[..n - 1];
      ColumnSumWithout(init, j, i);
      assert rest[..|rest| - 1] == init[..j] + init[j + 1..];
      assert rest[|rest| - 1] == sources[n - 1];
    }
  }

  /** A position of `x` in `s`. */
  function IndexOf<T(==)>(s: seq<T>, x: T): (j: nat)
    requires x in s
    ensures j < |s| && s[j] == x
  {
    if s[0] == x then 0 else 1 + IndexOf(s[1..], x)
  }

  lemma MultisetWithout<T>(s: seq<T>, j: nat)
    requires j < |s|
    ensures multiset(s[..j] + s[j + 1..]) == multiset(s) - multiset{s[j]}
  {
    assert s == s[..j] + [s[j]] + s[j + 1..];
  }

  /** Reordering the sources keeps every source long enough for day `i`. */
  lemma ReachesPermutation(sources: seq<seq<real>>, reordered: seq<seq<real>>, i: nat)
    requires multiset(sources) == multiset(reordered) && Reaches(sources, i)
    ensures Reaches(reordered, i)
  {
    forall s | s in reordered
      ensures i < |s|
    {
      assert s in multiset(reordered);
    }
  }

  /** Taking one occurrence of the same source out of two reorderings leaves two reorderings. */
  lemma MultisetWithoutBoth(sources: seq<seq<real>>, j: nat, reordered: seq<seq<real>>)
    requires multiset(sources) == multiset(reordered) && j < |sources| && reordered != []
    requires sources[j] == reordered[|reordered| - 1]
    ensures multiset(sources[..j] + sources[j + 1..]) == multiset(reordered[..|reordered| - 1])
  {
    var n := |reordered|;
    MultisetWithout(sources, j);
    MultisetWithout(reordered, n - 1);
    assert reordered[..n - 1] + reordered[n..] == reordered[..n - 1];
  }

  /** The sum does not depend on the order of the sources. */
  lemma {:induction false} ColumnSumPermutation(sources: seq<seq<real>>, reordered: seq<seq<real>>, i: nat)
    requires multiset(sources) == multiset(reordered) && Reaches(sources, i)
    ensures Reaches(reordered, i)
    ensures ColumnSum(sources, i) == ColumnSum(reordered, i)
    decreases |reordered|
  {
    ReachesPermutation(sources, reordered, i);
    if reordered == [] {
      assert |multiset(sources)| == 0;
    } else {
      var n := |reordered|;
      var last := reordered[n - 1];
      assert last in multiset(reordered);
      var j := IndexOf(sources, last);
      var rest := sources[..j] + sources[j + 1..];
      MultisetWithoutBoth(sources, j, reordered);
      ColumnSumWithout(sources, j, i);
      ColumnSumPermutation(rest, reordered[..n - 1], i);
    }
  }

  /**
   * Combining the same sources in any order gives the same series (for
   * sources of one common length `n`).
   */
  lemma CombineOrderIndependent(sources: seq<seq<real>>, reordered: seq<seq<real>>, n: nat)
    requires multiset(sources) == multiset(reordered)
    requires AllOfLength(sources, n)
    ensures AllOfLength(reordered, n)
    ensures forall i :: 0 <= i < n ==> ColumnSum(sources, i) == ColumnSum(reordered, i)
  {
    forall k | 0 <= k < |reordered|
      ensures |reordered[k]| == n
    {
      assert reordered[k] in multiset(sources);
    }
    forall i | 0 <= i < n
      ensures ColumnSum(sources, i) == ColumnSum(reordered, i)
    {
      ColumnSumPermutation(sources, reordered, i);
    }
  }

  /**
   * Combining two groups of sources at once is the sum of combining each
   * group: combining is associative.
   */
  lemma {:induction false} ColumnSumSplit(left: seq<seq<real>>, right: seq<seq<real>>, i: nat)
    requires Reaches(left, i) && Reaches(right, i)
    ensures Reaches(left + right, i)
    ensures ColumnSum(left + right, i) == ColumnSum(left, i) + ColumnSum(right, i)
    decreases |right|
  {
    if right == [] {
      assert left + right == left;
    } else {
      var m := |right|;
      assert (left + right)[..|left + right| - 1] == left + right[..m - 1];
      ColumnSumSplit(left, right[..m - 1], i);
    }
  }
}
