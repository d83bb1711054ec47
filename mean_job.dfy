/**
 * Phase 1 of the covariance example: `MeanMap` turns each usable image into
 * the mean of its 10 x 10 grid of patches, and `MeanReduce` (installed both as
 * combiner and as reducer) averages the values it receives.
 */
module MeanJob {
  import opened Wrappers
  import opened Vectors
  import opened PatchGrid

  /** The elementwise mean of a non-empty list of vectors; `None` for an empty list. */
  function MeanOf(values: seq<seq<real>>, len: nat): Option<seq<real>>
    requires AllLength(values, len)
  {
    if |values| == 0 then None
    else Some(Scale(SumVectors(values, len), 1.0 / (|values| as real)))
  }

  /** The sum of the `xCount * yCount` grid patches of an image, scaled by `1 / (xCount * yCount)`. */
  function GridMean(img: Image, n: nat, xCount: nat, yCount: nat): (m: seq<real>)
    requires Fits(img, n) && n < img.width && n < img.height && 0 < xCount && 0 < yCount
    ensures |m| == n * n
  {
    GridPatchLengths(img, n, xCount, yCount);
    Scale(SumVectors(GridPatches(img, n, xCount, yCount), n * n), 1.0 / ((xCount * yCount) as real))
  }

  /**
   * `generateMeanImage`: add the patches of the grid into a zero image, row
   * of the grid after row, then scale by one over the number of patches.
   */
  method GenerateMeanImage(input: Image, n: nat, xPatchCount: nat, yPatchCount: nat) returns (mean: seq<real>)
    requires Fits(input, n) && n < input.width && n < input.height
    requires 0 < xPatchCount && 0 < yPatchCount
    ensures mean == GridMean(input, n, xPatchCount, yPatchCount)
  {
    ghost var ps := GridPatches(input, n, xPatchCount, yPatchCount);
    GridPatchLengths(input, n, xPatchCount, yPatchCount);
    mean := Zeros(n * n);
    assert ps[..0] == [];
    for i := 0 to xPatchCount
      invariant i * yPatchCount <= |ps|
      invariant mean == SumVectors(ps[..i * yPatchCount], n * n)
    {
      var x := Offset(input.width, n, i, xPatchCount);
      assert (i + 1) * yPatchCount <= |ps| by {
        MulMonotone(i + 1, xPatchCount, yPatchCount);
      }
      GridRowAt(input, n, xPatchCount, yPatchCount, i);
      mean := AddGridRow(input, n, yPatchCount, i, x, ps, mean);
    }
    assert ps[..xPatchCount * yPatchCount] == ps;
    mean := Scale(mean, 1.0 / ((xPatchCount * yPatchCount) as real));
  }

  /**
   * The inner loop of `generateMeanImage`: add the patches of grid row `i`,
   * at horizontal offset `x`, which sit in slots `i * yPatchCount + j` of `ps`.
   */
  method AddGridRow(input: Image, n: nat, yPatchCount: nat, i: nat, x: int, ghost ps: seq<seq<real>>, mean: seq<real>)
    returns (rowSum: seq<real>)
    requires n < input.height && 0 < yPatchCount
    requires (i + 1) * yPatchCount <= |ps| && AllLength(ps, n * n)
    requires forall j :: 0 <= j < yPatchCount ==>
               FlatIndex(i, j, yPatchCount) < |ps| &&
               ps[FlatIndex(i, j, yPatchCount)] == input.crop(x, Offset(input.height, n, j, yPatchCount), n)
    requires mean == SumVectors(ps[..i * yPatchCount], n * n)
    ensures rowSum == SumVectors(ps[..(i + 1) * yPatchCount], n * n)
  {
    ghost var base := i * yPatchCount;
    assert base + yPatchCount == (i + 1) * yPatchCount;
    rowSum := mean;
    for j := 0 to yPatchCount
      invariant rowSum == SumVectors(ps[..base + j], n * n)
    {
      var y := Offset(input.height, n, j, yPatchCount);
      var patch := input.crop(x, y, n);
      assert FlatIndex(i, j, yPatchCount) == base + j;
      assert patch == ps[base + j];
      SumVectorsStep(ps, base + j, n * n);
      rowSum := Add(rowSum, patch);
    }
  }

  /**
   * `MeanMap.map`: a null image, or one not strictly larger than a patch in
   * both directions, writes nothing; any other writes its grid mean under key 0.
   */
  method MeanMap(value: Option<Image>, n: nat) returns (out: Option<(int, seq<real>)>)
    requires value.Some? ==> Fits(value.value, n)
    ensures out.None? <==> !Usable(value, n)
    ensures Usable(value, n) ==> out == Some((0, GridMean(value.value, n, GridCount, GridCount)))
  {
    if value.Some? && value.value.width > n && value.value.height > n {
      var mean := GenerateMeanImage(value.value, n, 10, 10);
      out := Some((0, mean));
    } else {
      out := None;
    }
  }

  /**
   * `MeanReduce.reduce`: add the values into a zero image while counting them;
   * write the sum scaled by one over the count, and nothing at all when no
   * value arrived.
   */
  method MeanReduce(key: int, values: seq<seq<real>>, n: nat) returns (out: Option<(int, seq<real>)>)
    requires AllLength(values, n * n)
    ensures out.None? <==> |values| == 0
    ensures out.Some? ==> out.value.0 == key && Some(out.value.1) == MeanOf(values, n * n)
  {
    var mean := Zeros(n * n);
    var total := 0;
    for t := 0 to |values|
      invariant total == t
      invariant mean == SumVectors(values[..t], n * n)
    {
      assert values[..t + 1][..t] == values[..t];
      mean := Add(mean, values[t]);
      total := total + 1;
    }
    assert values[..|values|] == values;
    if total > 0 {
      mean := Scale(mean, 1.0 / (total as real));
      out := Some((key, mean));
    } else {
      out := None;
    }
  }

  // ---------------------------------------------------------------------------
  // Properties of the means

  /** The per-image mean is the mean of the image's grid patches, of which there are exactly `xCount * yCount`. */
  lemma GridMeanIsMeanOfPatches(img: Image, n: nat, xCount: nat, yCount: nat)
    requires Fits(img, n) && n < img.width && n < img.height && 0 < xCount && 0 < yCount
    ensures AllLength(GridPatches(img, n, xCount, yCount), n * n)
    ensures |GridPatches(img, n, xCount, yCount)| == xCount * yCount
    ensures MeanOf(GridPatches(img, n, xCount, yCount), n * n) == Some(GridMean(img, n, xCount, yCount))
  {
    GridPatchLengths(img, n, xCount, yCount);
    MulMonotone(1, xCount, yCount);
  }

  /** Averaging `m > 0` copies of one vector gives that vector back. */
  lemma MeanOfCopies(v: seq<real>, m: nat)
    requires 0 < m
    ensures AllLength(seq(m, t => v), |v|)
    ensures MeanOf(seq(m, t => v), |v|) == Some(v)
  {
    SumVectorsCopies(v, m);
    var r := Scale(Scale(v, m as real), 1.0 / (m as real));
    forall k | 0 <= k < |v|
      ensures r[k] == v[k]
    {
      assert r[k] == v[k] * (m as real) * (1.0 / (m as real));
    }
    assert r == v;
  }

  /** An all-zero and an all-one patch average to one half at every pixel. */
  lemma MeanOfZeroAndOne(len: nat)
    ensures AllLength([Zeros(len), seq(len, k => 1.0)], len)
    ensures MeanOf([Zeros(len), seq(len, k => 1.0)], len) == Some(seq(len, k => 0.5))
  {
    var ones := seq(len, k => 1.0);
    var vs := [Zeros(len), ones];
    assert vs[..1] == [Zeros(len)];
    var none: seq<seq<real>> := [];
    assert [Zeros(len)][..0] == none;
    AddZeros(Zeros(len));
    assert SumVectors([Zeros(len)], len) == Zeros(len);
    AddZeros(ones);
    assert SumVectors(vs, len) == ones;
    var r := Scale(ones, 1.0 / 2.0);
    forall k | 0 <= k < len
      ensures r[k] == 0.5
    {
    }
    assert r == seq(len, k => 0.5);
  }

  /**
   * Because `MeanReduce` is also the combiner, the value the job writes
   * depends on how the framework groups the values: three per-image means
   * 0, 0 and 3 average to 1, but combining the first two on one node first
   * makes the reducer average 0 and 3, which gives 1.5.
   */
  lemma MeanCombinerRegroups()
    ensures MeanOf([[0.0], [0.0], [3.0]], 1) == Some([1.0])
    ensures MeanOf([[0.0], [0.0]], 1) == Some([0.0]) && MeanOf([[3.0]], 1) == Some([3.0])
    ensures MeanOf([[0.0], [3.0]], 1) == Some([1.5])
  {
    var a, b, c := [0.0], [0.0], [3.0];
    var none: seq<seq<real>> := [];
    assert [a, b, c][..2] == [a, b] && [a, b][..1] == [a] && [a][..0] == none;
    assert [a, c][..1] == [a] && [c][..0] == none;
    assert Zeros(1) == [0.0];
    assert Add([0.0], [0.0]) == [0.0] && Add([0.0], [3.0]) == [3.0];
    assert SumVectors([a], 1) == [0.0];
    assert SumVectors([a, b], 1) == [0.0];
    assert SumVectors([a, b, c], 1) == [3.0];
    assert SumVectors([c], 1) == [3.0];
    assert SumVectors([a, c], 1) == [3.0];
    assert Scale([3.0], 1.0 / 3.0) == [1.0] && Scale([3.0], 1.0 / 1.0) == [3.0];
    assert Scale([0.0], 1.0 / 2.0) == [0.0] && Scale([3.0], 1.0 / 2.0) == [1.5];
  }

  // ---------------------------------------------------------------------------
  // A combiner that does not depend on grouping: carry the sum and the count

  /** A partial mean: the sum of the values seen and how many there were. */
  datatype MeanSummary = MeanSummary(sum: seq<real>, count: nat)

  function Summarize(values: seq<seq<real>>, len: nat): (s: MeanSummary)
    requires AllLength(values, len)
    ensures |s.sum| == len && s.count == |values|
  {
    MeanSummary(SumVectors(values, len), |values|)
  }

  /** Merge two partial means: add the sums and the counts. */
  function CombineSummaries(a: MeanSummary, b: MeanSummary): (c: MeanSummary)
    requires |a.sum| == |b.sum|
    ensures |c.sum| == |a.sum| && c.count == a.count + b.count
  {
    MeanSummary(Add(a.sum, b.sum), a.count + b.count)
  }

  /** The mean a partial summary stands for; `None` when it has seen no value. */
  function FinishSummary(s: MeanSummary): Option<seq<real>>
  {
    if s.count == 0 then None else Some(Scale(s.sum, 1.0 / (s.count as real)))
  }

  /** Merge a list of partial means, from the front, starting with the empty summary. */
  function CombineAll(ss: seq<MeanSummary>, len: nat): (c: MeanSummary)
    requires forall t :: 0 <= t < |ss| ==> |ss[t].sum| == len
    ensures |c.sum| == len
  {
    if |ss| == 0 then MeanSummary(Zeros(len), 0)
    else CombineSummaries(CombineAll(ss[..|ss| - 1], len), ss[|ss| - 1])
  }

  /** Combining the summaries of two lists gives the summary of their concatenation. */
  lemma CombineSummarize(a: seq<seq<real>>, b: seq<seq<real>>, len: nat)
    requires AllLength(a, len) && AllLength(b, len)
    ensures AllLength(a + b, len)
    ensures CombineSummaries(Summarize(a, len), Summarize(b, len)) == Summarize(a + b, len)
  {
    SumVectorsAppend(a, b, len);
  }

  /**
   * However the values are split into groups, combining the groups'
   * summaries and finishing gives the mean of all values.
   */
  lemma {:induction false} SummaryGrouping(groups: seq<seq<seq<real>>>, len: nat)
    requires forall g :: 0 <= g < |groups| ==> AllLength(groups[g], len)
    ensures AllLength(Flatten(groups), len)
    ensures CombineAll(seq(|groups|, g requires 0 <= g < |groups| => Summarize(groups[g], len)), len)
         == Summarize(Flatten(groups), len)
    ensures FinishSummary(CombineAll(seq(|groups|, g requires 0 <= g < |groups| => Summarize(groups[g], len)), len))
         == MeanOf(Flatten(groups), len)
  {
    SumVectorsFlatten(groups, len);
    var ss := seq(|groups|, g requires 0 <= g < |groups| => Summarize(groups[g], len));
    if |groups| > 0 {
      var front := groups[..|groups| - 1];
      SummaryGrouping(front, len);
      assert ss[..|ss| - 1] == seq(|front|, g requires 0 <= g < |front| => Summarize(front[g], len));
      CombineSummarize(Flatten(front), groups[|groups| - 1], len);
    }
  }
}
