/** Selecting windows by class, as `np.where(y == label)` and `np.where(y != 1)` do in
    Prepare_data/Data_prepare_bilstm.py, and counting them, as `Counter(y)` does. */
module SampleClasses {
  import opened SequenceBuilder
  import opened Permutation

  /** Whether a sample's class is `c` (`eq`) or is not (`!eq`). */
  predicate Matches(x: Sample, c: int, eq: bool)
  {
    (x.target == c) == eq
  }

  /** The samples that match, in order. */
  function Filter(s: seq<Sample>, c: int, eq: bool): (r: seq<Sample>)
    ensures |r| <= |s|
    ensures forall k :: 0 <= k < |r| ==> Matches(r[k], c, eq)
  {
    if s == [] then []
    else Filter(s[..|s| - 1], c, eq) + (if Matches(s[|s| - 1], c, eq) then [s[|s| - 1]] else [])
  }

  /** The positions of the samples that match, increasing (`np.where(...)[0]`). */
  function Where(s: seq<Sample>, c: int, eq: bool): (idx: seq<nat>)
    ensures InBounds(idx, |s|)
  {
    if s == [] then []
    else Where(s[..|s| - 1], c, eq) + (if Matches(s[|s| - 1], c, eq) then [|s| - 1] else [])
  }

  /** How many samples are of class `c`. */
  function Count(s: seq<Sample>, c: int): nat
  {
    |Filter(s, c, true)|
  }

  lemma GatherPrefix<T>(s: seq<T>, m: nat, idx: seq<nat>)
    requires m <= |s| && InBounds(idx, m)
    ensures Gather(s, idx) == Gather(s[..m], idx)
  {
  }

  /** Indexing by the matching positions selects exactly the matching samples. */
  lemma {:induction false} GatherWhere(s: seq<Sample>, c: int, eq: bool)
    ensures Gather(s, Where(s, c, eq)) == Filter(s, c, eq)
  {
    if s != [] {
      var init := s[..|s| - 1];
      GatherWhere(init, c, eq);
      GatherPrefix(s, |s| - 1, Where(init, c, eq));
      var tail := if Matches(s[|s| - 1], c, eq) then [|s| - 1] else [];
      GatherConcat(s, Where(init, c, eq), tail);
    }
  }

  /** A sample occurs in the filter as often as in the input when it matches, never otherwise. */
  lemma {:induction false} FilterMultiplicity(s: seq<Sample>, c: int, eq: bool, x: Sample)
    ensures multiset(Filter(s, c, eq))[x] == if Matches(x, c, eq) then multiset(s)[x] else 0
  {
    if s != [] {
      FilterMultiplicity(s[..|s| - 1], c, eq, x);
      assert s == s[..|s| - 1] + [s[|s| - 1]];
    }
  }

  /** Filtering commutes with rearranging. */
  lemma FilterRespectsMultiset(s: seq<Sample>, t: seq<Sample>, c: int, eq: bool)
    requires multiset(s) == multiset(t)
    ensures multiset(Filter(s, c, eq)) == multiset(Filter(t, c, eq))
    ensures |Filter(s, c, eq)| == |Filter(t, c, eq)|
  {
    forall x ensures multiset(Filter(s, c, eq))[x] == multiset(Filter(t, c, eq))[x] {
      FilterMultiplicity(s, c, eq, x);
      FilterMultiplicity(t, c, eq, x);
    }
    assert multiset(Filter(s, c, eq)) == multiset(Filter(t, c, eq));
    assert |multiset(Filter(s, c, eq))| == |multiset(Filter(t, c, eq))|;
  }

  lemma FilterSubMultiset(s: seq<Sample>, t: seq<Sample>, c: int, eq: bool)
    requires multiset(s) <= multiset(t)
    ensures multiset(Filter(s, c, eq)) <= multiset(Filter(t, c, eq))
  {
    forall x ensures multiset(Filter(s, c, eq))[x] <= multiset(Filter(t, c, eq))[x] {
      FilterMultiplicity(s, c, eq, x);
      FilterMultiplicity(t, c, eq, x);
    }
  }

  lemma {:induction false} FilterConcat(a: seq<Sample>, b: seq<Sample>, c: int, eq: bool)
    ensures Filter(a + b, c, eq) == Filter(a, c, eq) + Filter(b, c, eq)
    decreases |b|
  {
    if b != [] {
      var bi := b[..|b| - 1];
      assert (a + b)[..|a + b| - 1] == a + bi;
      FilterConcat(a, bi, c, eq);
    } else {
      assert a + b == a;
    }
  }

  /** A sequence whose samples all match filters to itself. */
  lemma {:induction false} FilterAll(s: seq<Sample>, c: int, eq: bool)
    requires forall k :: 0 <= k < |s| ==> Matches(s[k], c, eq)
    ensures Filter(s, c, eq) == s
  {
    if s != [] {
      FilterAll(s[..|s| - 1], c, eq);
    }
  }

  /** A sequence none of whose samples match filters to nothing. */
  lemma {:induction false} FilterNone(s: seq<Sample>, c: int, eq: bool)
    requires forall k :: 0 <= k < |s| ==> !Matches(s[k], c, eq)
    ensures Filter(s, c, eq) == []
  {
    if s != [] {
      FilterNone(s[..|s| - 1], c, eq);
    }
  }

  /** Every sample is counted once: in its class or outside it. */
  lemma {:induction false} FilterSplits(s: seq<Sample>, c: int)
    ensures |Filter(s, c, true)| + |Filter(s, c, false)| == |s|
  {
    if s != [] {
      FilterSplits(s[..|s| - 1], c);
    }
  }
}
