/** Index permutations as numpy draws them in Prepare_data/Data_prepare_bilstm.py: the in-place
    Fisher-Yates shuffle of `np.random.shuffle` (line 104, line 189), `np.random.choice` without
    replacement (line 187, a prefix of a shuffled range), and fancy indexing `a[idx]`
    (lines 105, 190-191). The random stream is a parameter `pick`: at step `i` the shuffle swaps
    position `i` with position `pick(i) % (i + 1)`. */
module Permutation {

  /** `np.arange(n)`. */
  function Range(n: nat): (r: seq<nat>)
    ensures |r| == n && forall i :: 0 <= i < n ==> r[i] == i
  {
    seq(n, i requires 0 <= i < n => i)
  }

  predicate InBounds(idx: seq<nat>, n: nat)
  {
    forall k :: 0 <= k < |idx| ==> idx[k] < n
  }

  /** `s[idx]`: the elements of `s` at the positions `idx`, in that order. */
  function Gather<T>(s: seq<T>, idx: seq<nat>): (r: seq<T>)
    requires InBounds(idx, |s|)
    ensures |r| == |idx| && forall k :: 0 <= k < |idx| ==> r[k] == s[idx[k]]
  {
    seq(|idx|, k requires 0 <= k < |idx| => s[idx[k]])
  }

  /** `s` with positions `i` and `j` exchanged. */
  function Swap<T>(s: seq<T>, i: nat, j: nat): (r: seq<T>)
    requires i < |s| && j < |s|
    ensures |r| == |s|
  {
    s[i := s[j]][j := s[i]]
  }

  lemma SwapPermutes<T>(s: seq<T>, i: nat, j: nat)
    requires i < |s| && j < |s|
    ensures multiset(Swap(s, i, j)) == multiset(s)
  {
  }

  /** The position the shuffle exchanges with position `i`. */
  function Partner(pick: nat -> nat, i: nat): (j: nat)
    ensures j <= i
  {
    pick(i) % (i + 1)
  }

  /** The shuffle's remaining steps, from position `i` down to position 1. */
  function FisherYates<T>(s: seq<T>, pick: nat -> nat, i: nat): (r: seq<T>)
    requires i < |s|
    ensures |r| == |s|
    decreases i
  {
    if i == 0 then s else FisherYates(Swap(s, i, Partner(pick, i)), pick, i - 1)
  }

  /** The whole shuffle of `s`. */
  function Shuffled<T>(s: seq<T>, pick: nat -> nat): (r: seq<T>)
    ensures |r| == |s|
  {
    if |s| == 0 then s else FisherYates(s, pick, |s| - 1)
  }

  lemma {:induction false} FisherYatesPermutes<T>(s: seq<T>, pick: nat -> nat, i: nat)
    requires i < |s|
    ensures multiset(FisherYates(s, pick, i)) == multiset(s)
    decreases i
  {
    if i > 0 {
      var t := Swap(s, i, Partner(pick, i));
      SwapPermutes(s, i, Partner(pick, i));
      FisherYatesPermutes(t, pick, i - 1);
    }
  }

  lemma FisherYatesStep<T>(s: seq<T>, pick: nat -> nat, i: nat)
    requires 0 < i < |s|
    ensures FisherYates(s, pick, i) == FisherYates(Swap(s, i, Partner(pick, i)), pick, i - 1)
  {
  }

  /** Shuffling only rearranges. */
  lemma ShuffledPermutes<T>(s: seq<T>, pick: nat -> nat)
    ensures multiset(Shuffled(s, pick)) == multiset(s)
  {
    if |s| > 0 {
      FisherYatesPermutes(s, pick, |s| - 1);
    }
  }

  /** Shuffled positions stay in bounds. */
  lemma ShuffledInBounds(xs: seq<nat>, n: nat, pick: nat -> nat)
    requires InBounds(xs, n)
    ensures InBounds(Shuffled(xs, pick), n)
  {
    var ys := Shuffled(xs, pick);
    ShuffledPermutes(xs, pick);
    forall k | 0 <= k < |ys| ensures ys[k] < n {
      assert ys[k] in multiset(xs);
    }
  }

  /** `np.random.shuffle(a)`: exchanges `a[i]` with `a[pick(i) % (i + 1)]` for `i` from the
      last position down to 1. */
  method Shuffle(a: array<nat>, pick: nat -> nat)
    modifies a
    ensures a[..] == Shuffled(old(a[..]), pick)
    ensures multiset(a[..]) == multiset(old(a[..]))
  {
    if a.Length == 0 {
      return;
    }
    ghost var start := a[..];
    var i := a.Length - 1;
    while i > 0
      invariant 0 <= i < a.Length
      invariant FisherYates(a[..], pick, i) == FisherYates(start, pick, a.Length - 1)
      decreases i
    {
      var j := Partner(pick, i);
      ghost var before := a[..];
      a[i], a[j] := a[j], a[i];
      assert FisherYates(a[..], pick, i - 1) == FisherYates(before, pick, i) by {
        assert a[..] == Swap(before, i, j);
        FisherYatesStep(before, pick, i);
      }
      i := i - 1;
    }
    assert a[..] == Shuffled(start, pick) by {
      assert FisherYates(a[..], pick, 0) == a[..];
    }
    ShuffledPermutes(start, pick);
  }

  /** Sequences with equal multisets of positions gather equal multisets of elements. */
  lemma {:induction false} GatherRespectsMultiset<T>(s: seq<T>, idx: seq<nat>, other: seq<nat>)
    requires InBounds(idx, |s|) && InBounds(other, |s|)
    requires multiset(idx) == multiset(other)
    ensures multiset(Gather(s, idx)) == multiset(Gather(s, other))
    decreases |idx|
  {
    if idx != [] {
      var x := idx[0];
      assert x in multiset(other);
      var p :| 0 <= p < |other| && other[p] == x;
      var rest := other[..p] + other[p + 1..];
      RemoveMatching(idx, other, p);
      GatherRemoveAt(s, idx, 0);
      GatherRemoveAt(s, other, p);
      assert idx[..0] + idx[1..] == idx[1..];
      GatherRespectsMultiset(s, idx[1..], rest);
    }
  }

  /** Taking the same value out of two sequences with equal multisets leaves equal multisets. */
  lemma RemoveMatching(idx: seq<nat>, other: seq<nat>, p: nat)
    requires idx != [] && p < |other| && other[p] == idx[0]
    requires multiset(idx) == multiset(other)
    ensures multiset(idx[1..]) == multiset(other[..p] + other[p + 1..])
  {
    RemoveAt(idx, 0);
    RemoveAt(other, p);
    assert idx[..0] + idx[1..] == idx[1..];
  }

  lemma RemoveAt(xs: seq<nat>, p: nat)
    requires p < |xs|
    ensures multiset(xs[..p] + xs[p + 1..]) == multiset(xs) - multiset{xs[p]}
  {
    assert xs == xs[..p] + [xs[p]] + xs[p + 1..];
  }

  lemma GatherRemoveAt<T>(s: seq<T>, xs: seq<nat>, p: nat)
    requires InBounds(xs, |s|) && p < |xs|
    ensures InBounds(xs[..p] + xs[p + 1..], |s|)
    ensures multiset(Gather(s, xs)) == multiset(Gather(s, xs[..p] + xs[p + 1..])) + multiset{s[xs[p]]}
  {
    var g, h := Gather(s, xs), Gather(s, xs[..p] + xs[p + 1..]);
    assert g == g[..p] + [g[p]] + g[p + 1..];
    assert h == g[..p] + g[p + 1..];
  }

  lemma GatherConcat<T>(s: seq<T>, a: seq<nat>, b: seq<nat>)
    requires InBounds(a, |s|) && InBounds(b, |s|)
    ensures InBounds(a + b, |s|)
    ensures Gather(s, a + b) == Gather(s, a) + Gather(s, b)
  {
  }

  /** Gathering through a permutation of all positions only rearranges. */
  lemma GatherPermutationPermutes<T>(s: seq<T>, idx: seq<nat>)
    requires multiset(idx) == multiset(Range(|s|))
    ensures InBounds(idx, |s|)
    ensures multiset(Gather(s, idx)) == multiset(s)
  {
    forall k | 0 <= k < |idx| ensures idx[k] < |s| {
      assert idx[k] in multiset(Range(|s|));
    }
    GatherRespectsMultiset(s, idx, Range(|s|));
    assert Gather(s, Range(|s|)) == s;
  }

  /** Positions drawn without repetition from a permutation of all positions gather a
      sub-multiset. */
  lemma GatherPrefixIsSubMultiset<T>(s: seq<T>, idx: seq<nat>, k: nat)
    requires multiset(idx) == multiset(Range(|s|)) && k <= |idx|
    ensures InBounds(idx[..k], |s|)
    ensures multiset(Gather(s, idx[..k])) <= multiset(s)
  {
    GatherPermutationPermutes(s, idx);
    assert idx == idx[..k] + idx[k..];
    GatherConcat(s, idx[..k], idx[k..]);
  }
}
