/** Minority oversampling with augmentation, Prepare_data/Data_prepare_bilstm.py
    (oversample_sequences, lines 61-113). The random draws are parameters: each call of
    `augment_batch` receives a `BatchDraw` of Gaussian noise per value, one scale per window
    and one warp factor per window and time step; the final shuffle receives `pick`. */
module Oversampling {
  import opened SequenceBuilder
  import opened Permutation
  import opened SampleClasses

  /** The draws one `augment_batch` call makes: noise for value (window, step, channel), a
      scale per window, a warp factor per (window, step). */
  datatype BatchDraw = BatchDraw(noise: (nat, nat, nat) -> real, scale: nat -> real, warp: (nat, nat) -> real)

  /** The draws of the whole call: one `BatchDraw` per (class, copy). */
  type Draws = (int, nat) -> BatchDraw

  const DUMP: int := 0
  const NORMAL: int := 1
  const PUMP: int := 2

  /** A stack of windows, `batch[w][t][c]`. */
  type Batch = seq<seq<seq<real>>>

  /** augment_batch: add noise, multiply by the window's scale, then by the step's warp. */
  function AugmentBatch(batch: Batch, d: BatchDraw): (r: Batch)
    ensures |r| == |batch|
  {
    seq(|batch|, w requires 0 <= w < |batch| => AugmentWindow(batch[w], d, w))
  }

  /** Window `w` of the batch after noise, scale and warp. */
  function AugmentWindow(window: seq<seq<real>>, d: BatchDraw, w: nat): (r: seq<seq<real>>)
    ensures |r| == |window|
  {
    seq(|window|, t requires 0 <= t < |window| => AugmentStep(window[t], d, w, t))
  }

  /** Step `t` of window `w`: `(x + noise) * scale * warp` for every channel. */
  function AugmentStep(step: seq<real>, d: BatchDraw, w: nat, t: nat): (r: seq<real>)
    ensures |r| == |step|
  {
    seq(|step|, c requires 0 <= c < |step| => (step[c] + d.noise(w, t, c)) * d.scale(w) * d.warp(w, t))
  }

  /** Augmentation keeps every window's shape: as many steps, each with as many channels. */
  lemma AugmentKeepsShape(batch: Batch, d: BatchDraw, w: nat)
    requires w < |batch|
    ensures var r := AugmentBatch(batch, d);
      |r[w]| == |batch[w]| && forall t :: 0 <= t < |batch[w]| ==> |r[w][t]| == |batch[w][t]|
  {
  }

  /** Zero noise, unit scales and unit warps give the batch back unchanged. */
  lemma NeutralDrawKeepsBatch(batch: Batch, d: BatchDraw)
    requires forall w, t, c :: d.noise(w, t, c) == 0.0
    requires forall w :: d.scale(w) == 1.0
    requires forall w, t :: d.warp(w, t) == 1.0
    ensures AugmentBatch(batch, d) == batch
  {
    var r := AugmentBatch(batch, d);
    forall w | 0 <= w < |batch| ensures r[w] == batch[w] {
      forall t | 0 <= t < |batch[w]| ensures r[w][t] == batch[w][t] {
        forall c | 0 <= c < |batch[w][t]| ensures r[w][t][c] == batch[w][t][c] {
          assert r[w][t][c] == (batch[w][t][c] + d.noise(w, t, c)) * d.scale(w) * d.warp(w, t);
        }
      }
    }
  }

  function WindowsOf(s: seq<Sample>): (b: Batch)
    ensures |b| == |s| && forall k :: 0 <= k < |s| ==> b[k] == s[k].window
  {
    seq(|s|, k requires 0 <= k < |s| => s[k].window)
  }

  /** `np.full(len, label)` zipped with the windows. */
  function WithLabel(b: Batch, c: int): (s: seq<Sample>)
    ensures |s| == |b| && forall k :: 0 <= k < |b| ==> s[k] == Sample(b[k], c)
  {
    seq(|b|, k requires 0 <= k < |b| => Sample(b[k], c))
  }

  /** The first `m` augmented copies of class `c`'s windows, copy by copy. */
  function Copies(minority: Batch, c: int, m: nat, draws: Draws): seq<Sample>
  {
    if m == 0 then []
    else Copies(minority, c, m - 1, draws) + WithLabel(AugmentBatch(minority, draws(c, m - 1)), c)
  }

  /** What class `c` with factor `factor` adds: `factor - 1` augmented copies of its windows,
      nothing when it has none. */
  function Added(samples: seq<Sample>, c: int, factor: int, draws: Draws): seq<Sample>
  {
    var minority := WindowsOf(Filter(samples, c, true));
    if |minority| == 0 || factor - 1 <= 0 then [] else Copies(minority, c, factor - 1, draws)
  }

  /** The samples before the shuffle: the originals, then the dump copies, then the pump copies. */
  function Pool(samples: seq<Sample>, factorPump: int, factorDump: int, draws: Draws): seq<Sample>
  {
    samples + Added(samples, DUMP, factorDump, draws) + Added(samples, PUMP, factorPump, draws)
  }

  /** oversample_sequences: the pool in the order the shuffled index array gives. */
  method Oversample(samples: seq<Sample>, factorPump: int, factorDump: int, draws: Draws, pick: nat -> nat)
    returns (out: seq<Sample>)
    ensures var pool := Pool(samples, factorPump, factorDump, draws);
      InBounds(Shuffled(Range(|pool|), pick), |pool|) &&
      out == Gather(pool, Shuffled(Range(|pool|), pick))
    ensures multiset(out) == multiset(Pool(samples, factorPump, factorDump, draws))
  {
    var pool := samples;
    var plan := [(DUMP, factorDump), (PUMP, factorPump)];
    var p := 0;
    while p < |plan|
      invariant 0 <= p <= |plan|
      invariant pool == samples + (if p >= 1 then Added(samples, DUMP, factorDump, draws) else [])
                                + (if p >= 2 then Added(samples, PUMP, factorPump, draws) else [])
    {
      var (c, factor) := plan[p];
      var added := ClassCopies(samples, c, factor, draws);
      pool := pool + added;
      p := p + 1;
    }
    out := ShuffleSamples(pool, pick);
  }

  /** `indices = np.arange(n)`, `np.random.shuffle(indices)`, then `X[indices], y[indices]`. */
  method ShuffleSamples(pool: seq<Sample>, pick: nat -> nat) returns (out: seq<Sample>)
    ensures InBounds(Shuffled(Range(|pool|), pick), |pool|)
    ensures out == Gather(pool, Shuffled(Range(|pool|), pick))
    ensures multiset(out) == multiset(pool)
  {
    var indices := new nat[|pool|](i => i);
    assert indices[..] == Range(|pool|);
    Shuffle(indices, pick);
    ShuffledPermutes(Range(|pool|), pick);
    GatherPermutationPermutes(pool, indices[..]);
    out := Gather(pool, indices[..]);
  }

  /** One pass of the class loop: the windows of class `c`, then `factor - 1` augmented
      copies of them; nothing when the class has no windows. */
  method ClassCopies(samples: seq<Sample>, c: int, factor: int, draws: Draws) returns (added: seq<Sample>)
    ensures added == Added(samples, c, factor, draws)
  {
    GatherWhere(samples, c, true);
    var minority := WindowsOf(Gather(samples, Where(samples, c, true)));
    added := [];
    if |minority| == 0 {
      return;
    }
    var k := 0;
    while k < factor - 1
      invariant 0 <= k && (if factor - 1 >= 0 then k <= factor - 1 else k == 0)
      invariant added == Copies(minority, c, k, draws)
    {
      added := added + WithLabel(AugmentBatch(minority, draws(c, k)), c);
      k := k + 1;
    }
    assert minority == WindowsOf(Filter(samples, c, true));
    if factor - 1 <= 0 {
      assert added == [];
    } else {
      assert k == factor - 1;
    }
  }

  // ---------------------------------------------------------------------------------------
  // Counts

  /** `q` blocks of `n`: `q * n`, written as repeated addition so that the proofs about
      copies stay linear. */
  function Blocks(q: nat, n: nat): nat
  {
    if q == 0 then 0 else Blocks(q - 1, n) + n
  }

  /** The original windows plus `f - 1` blocks of copies are `f` blocks. */
  lemma {:induction false} BlocksPlusOne(f: nat, n: nat)
    requires f >= 1
    ensures n + Blocks(f - 1, n) == f * n
  {
    if f > 1 {
      BlocksPlusOne(f - 1, n);
      assert f * n == (f - 1) * n + n;
    }
  }

  /** `m` copies hold `m` blocks of windows. */
  lemma {:induction false} CopiesLength(minority: Batch, c: int, m: nat, draws: Draws)
    ensures |Copies(minority, c, m, draws)| == Blocks(m, |minority|)
  {
    if m > 0 {
      CopiesLength(minority, c, m - 1, draws);
    }
  }

  /** Every copy carries the class it was made for. */
  lemma {:induction false} CopiesOfClass(minority: Batch, c: int, m: nat, draws: Draws)
    ensures forall k :: 0 <= k < |Copies(minority, c, m, draws)| ==> Copies(minority, c, m, draws)[k].target == c
  {
    if m > 0 {
      var prev := Copies(minority, c, m - 1, draws);
      var last := WithLabel(AugmentBatch(minority, draws(c, m - 1)), c);
      assert Copies(minority, c, m, draws) == prev + last;
      CopiesOfClass(minority, c, m - 1, draws);
    }
  }

  /** Copy `i` of window `w` sits at position `i * n + w`: window `w` augmented with the
      draws of copy `i`, labelled with the class. */
  lemma {:induction false} CopyAt(minority: Batch, c: int, m: nat, draws: Draws, i: nat, w: nat)
    requires i < m && w < |minority|
    ensures var k := Blocks(i, |minority|) + w;
      k < |Copies(minority, c, m, draws)| &&
      Copies(minority, c, m, draws)[k] == Sample(AugmentBatch(minority, draws(c, i))[w], c)
  {
    var prev := Copies(minority, c, m - 1, draws);
    var last := WithLabel(AugmentBatch(minority, draws(c, m - 1)), c);
    assert Copies(minority, c, m, draws) == prev + last;
    CopiesLength(minority, c, m - 1, draws);
    var k := Blocks(i, |minority|) + w;
    if i < m - 1 {
      CopyAt(minority, c, m - 1, draws, i, w);
      BlocksMonotone(i + 1, m - 1, |minority|);
      assert k < |prev|;
      assert (prev + last)[k] == prev[k];
    } else {
      assert k == |prev| + w;
      assert (prev + last)[k] == last[w];
    }
  }

  lemma BlocksMonotone(a: nat, b: nat, n: nat)
    requires a <= b
    ensures Blocks(a, n) <= Blocks(b, n)
  {
  }

  lemma AddedClass(samples: seq<Sample>, c: int, factor: int, draws: Draws)
    ensures |Added(samples, c, factor, draws)| ==
      if factor >= 1 then Blocks(factor - 1, Count(samples, c)) else 0
    ensures forall k :: 0 <= k < |Added(samples, c, factor, draws)| ==> Added(samples, c, factor, draws)[k].target == c
  {
    var minority := WindowsOf(Filter(samples, c, true));
    if |minority| > 0 && factor - 1 > 0 {
      CopiesLength(minority, c, factor - 1, draws);
      CopiesOfClass(minority, c, factor - 1, draws);
    } else if factor >= 1 {
      BlocksOfNothing(factor - 1);
    }
  }

  lemma BlocksOfNothing(q: nat)
    ensures Blocks(q, 0) == 0
  {
  }

  /** A class the copies are not of does not gain from them. */
  lemma AddedOtherClass(samples: seq<Sample>, c: int, other: int, factor: int, draws: Draws)
    requires other != c
    ensures Count(Added(samples, c, factor, draws), other) == 0
  {
    var a := Added(samples, c, factor, draws);
    AddedClass(samples, c, factor, draws);
    FilterNone(a, other, true);
  }

  /** The class counts after oversampling: dumps and pumps are multiplied by their factor
      (kept as they are when the factor is below 1), every other class keeps its count, and
      every original sample is still there. */
  lemma OversampledCounts(samples: seq<Sample>, factorPump: int, factorDump: int, draws: Draws, out: seq<Sample>)
    requires multiset(out) == multiset(Pool(samples, factorPump, factorDump, draws))
    ensures Count(out, DUMP) == if factorDump >= 1 then factorDump * Count(samples, DUMP) else Count(samples, DUMP)
    ensures Count(out, PUMP) == if factorPump >= 1 then factorPump * Count(samples, PUMP) else Count(samples, PUMP)
    ensures forall c :: c != DUMP && c != PUMP ==> Count(out, c) == Count(samples, c)
    ensures multiset(samples) <= multiset(out)
    ensures |out| == |samples| + |Added(samples, DUMP, factorDump, draws)| + |Added(samples, PUMP, factorPump, draws)|
  {
    var ad, ap := Added(samples, DUMP, factorDump, draws), Added(samples, PUMP, factorPump, draws);
    var pool := Pool(samples, factorPump, factorDump, draws);
    assert |multiset(out)| == |multiset(pool)|;
    assert Count(out, DUMP) == if factorDump >= 1 then factorDump * Count(samples, DUMP) else Count(samples, DUMP) by {
      PoolCount(samples, factorPump, factorDump, draws, out, DUMP);
      OwnClassGain(samples, DUMP, factorDump, draws);
      AddedOtherClass(samples, PUMP, DUMP, factorPump, draws);
    }
    assert Count(out, PUMP) == if factorPump >= 1 then factorPump * Count(samples, PUMP) else Count(samples, PUMP) by {
      PoolCount(samples, factorPump, factorDump, draws, out, PUMP);
      OwnClassGain(samples, PUMP, factorPump, draws);
      AddedOtherClass(samples, DUMP, PUMP, factorDump, draws);
    }
    forall c | c != DUMP && c != PUMP ensures Count(out, c) == Count(samples, c) {
      PoolCount(samples, factorPump, factorDump, draws, out, c);
      AddedOtherClass(samples, DUMP, c, factorDump, draws);
      AddedOtherClass(samples, PUMP, c, factorPump, draws);
    }
  }

  /** A class's count in any rearrangement of the pool: originals plus both kinds of copies. */
  lemma PoolCount(samples: seq<Sample>, factorPump: int, factorDump: int, draws: Draws, out: seq<Sample>, c: int)
    requires multiset(out) == multiset(Pool(samples, factorPump, factorDump, draws))
    ensures Count(out, c) ==
      Count(samples, c) + Count(Added(samples, DUMP, factorDump, draws), c) + Count(Added(samples, PUMP, factorPump, draws), c)
  {
    var ad, ap := Added(samples, DUMP, factorDump, draws), Added(samples, PUMP, factorPump, draws);
    FilterRespectsMultiset(out, Pool(samples, factorPump, factorDump, draws), c, true);
    FilterConcat(samples + ad, ap, c, true);
    FilterConcat(samples, ad, c, true);
  }

  /** The copies of class `c` bring its count to `factor` times the original. */
  lemma OwnClassGain(samples: seq<Sample>, c: int, factor: int, draws: Draws)
    ensures Count(samples, c) + Count(Added(samples, c, factor, draws), c) ==
      if factor >= 1 then factor * Count(samples, c) else Count(samples, c)
  {
    var a := Added(samples, c, factor, draws);
    AddedClass(samples, c, factor, draws);
    FilterAll(a, c, true);
    if factor >= 1 {
      BlocksPlusOne(factor, Count(samples, c));
    }
  }

  /** A class without windows, or with factor 1, gains nothing. */
  lemma NothingAddedWithoutWindowsOrFactor(samples: seq<Sample>, c: int, factor: int, draws: Draws)
    requires Count(samples, c) == 0 || factor <= 1
    ensures Added(samples, c, factor, draws) == []
  {
  }

  /** Every augmented window has the shape of the window it was made from, and carries its
      class. */
  lemma AugmentedWindowsKeepShape(minority: Batch, c: int, m: nat, draws: Draws, i: nat, w: nat)
    requires i < m && w < |minority|
    ensures var k := Blocks(i, |minority|) + w;
      k < |Copies(minority, c, m, draws)| &&
      var x := Copies(minority, c, m, draws)[k];
      x.target == c && |x.window| == |minority[w]| &&
      forall t :: 0 <= t < |x.window| ==> |x.window[t]| == |minority[w][t]|
  {
    CopyAt(minority, c, m, draws, i, w);
    AugmentKeepsShape(minority, draws(c, i), w);
  }
}
