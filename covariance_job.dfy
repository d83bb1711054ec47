/**
 * Phase 2 of the covariance example: `CovarianceMap` centres every grid patch
 * on the phase-1 mean, windows it with a normalised Gaussian mask and writes,
 * per image, the sum of the outer products of those vectors; `CovarianceReduce`
 * (combiner and reducer) adds these matrices up.
 */
module CovarianceJob {
  import opened Wrappers
  import opened Vectors
  import opened PatchGrid
  import opened MeanJob

  /** Centre a patch on the mean and mask it: entry `k` is `(pels[k] - mean[k]) * gaussian[k]`. */
  function Window(pels: seq<real>, mean: seq<real>, gaussian: seq<real>): (v: seq<real>)
    requires |pels| == |mean| == |gaussian|
    ensures |v| == |pels|
    ensures pels == mean ==> v == Zeros(|pels|)
  {
    seq(|pels|, k requires 0 <= k < |pels| => (pels[k] - mean[k]) * gaussian[k])
  }

  /** Every patch of a list, centred and masked. */
  function WindowAll(ps: seq<seq<real>>, mean: seq<real>, gaussian: seq<real>): (vs: seq<seq<real>>)
    requires AllLength(ps, |mean|) && |mean| == |gaussian|
    ensures |vs| == |ps| && AllLength(vs, |mean|)
  {
    seq(|ps|, t requires 0 <= t < |ps| => Window(ps[t], mean, gaussian))
  }

  /** `sum over t of vs[t][p] * vs[t][q]`, accumulated from the front. */
  function OuterSum(vs: seq<seq<real>>, p: nat, q: nat): real
    requires forall t :: 0 <= t < |vs| ==> p < |vs[t]| && q < |vs[t]|
  {
    if |vs| == 0 then 0.0
    else OuterSum(vs[..|vs| - 1], p, q) + vs[|vs| - 1][p] * vs[|vs| - 1][q]
  }

  /** The `w * w` matrix, flattened row by row, whose entry `(p, q)` is `OuterSum(vs, p, q)`. */
  function CovarianceOf(vs: seq<seq<real>>, w: nat): (c: seq<real>)
    requires AllLength(vs, w)
    ensures |c| == w * w
  {
    seq(w * w, m requires 0 <= m < w * w => FlatIndexRange(m, w, w); OuterSum(vs, m / w, m % w))
  }

  /** The Gaussian weights rescaled so that they add up to `n * n`. */
  function Normalized(raw: seq<real>, n: nat): (g: seq<real>)
    requires SumReals(raw) != 0.0
    ensures |g| == |raw|
  {
    seq(|raw|, k requires 0 <= k < |raw| => raw[k] * ((n * n) as real / SumReals(raw)))
  }

  /** The samples of a two-dimensional array, row by row. */
  function Rows(a: array2<real>): (rs: seq<seq<real>>)
    reads a
    ensures |rs| == a.Length0 && AllLength(rs, a.Length1)
  {
    seq(a.Length0, s requires 0 <= s < a.Length0 reads a =>
      seq(a.Length1, c requires 0 <= c < a.Length1 reads a => a[s, c]))
  }

  /**
   * `CovarianceMap`: the patch size `n`, the Gaussian mask built by `setup`
   * and the mean image loaded from phase 1.
   */
  class CovarianceMapper {
    const n: nat
    var gaussianArray: array<real>
    var mean: seq<real>

    /** `setup` has run: one weight and one mean sample per pixel of a patch. */
    ghost predicate Valid()
      reads this
    {
      gaussianArray.Length == n * n && |mean| == n * n
    }

    constructor (n: nat)
      requires 0 < n
      ensures this.n == n && gaussianArray.Length == 0 && mean == []
    {
      this.n := n;
      gaussianArray := new real[0];
      mean := [];
    }

    /**
     * `setup`: store the raw Gaussian weights while adding them up, then
     * multiply each by `n * n / sum`; finally keep the mean loaded from the
     * phase-1 artifact. `raw[i * n + j]` stands for the `Math.exp` value at
     * pixel `(i, j)`, which is positive.
     */
    method Setup(raw: seq<real>, loadedMean: seq<real>)
      requires 0 < n && |raw| == n * n && forall k :: 0 <= k < |raw| ==> raw[k] > 0.0
      requires |loadedMean| == n * n
      modifies this
      ensures Valid() && fresh(gaussianArray) && mean == loadedMean
      ensures SumReals(raw) > 0.0 && gaussianArray[..] == Normalized(raw, n)
    {
      var g, gaussianSum := StoreWeights(raw, n);
      SumRealsPositive(raw);
      assert forall m :: 0 <= m < n * n ==> g[m] == raw[m];
      NormalizeWeights(g, n, gaussianSum);
      forall m | 0 <= m < n * n
        ensures g[..][m] == Normalized(raw, n)[m]
      {
      }
      assert g[..] == Normalized(raw, n);
      gaussianArray := g;
      mean := loadedMean;
    }

    /**
     * The first half of `map`: the 100 grid patches of the image, centred and
     * masked, in slots `i * 10 + j`.
     */
    method CollectPatches(value: Image) returns (patchArray: array2<real>)
      requires Valid() && Fits(value, n) && n < value.width && n < value.height
      ensures fresh(patchArray) && patchArray.Length0 == 100 && patchArray.Length1 == n * n
      ensures GridPatchesFit(value, n)
        && Rows(patchArray) == WindowAll(GridPatches(value, n, GridCount, GridCount), mean, gaussianArray[..])
    {
      GridPatchLengths(value, n, GridCount, GridCount);
      ghost var want := WindowAll(GridPatches(value, n, GridCount, GridCount), mean, gaussianArray[..]);
      patchArray := new real[100, n * n];
      for i := 0 to 10
        invariant forall s, c :: 0 <= s < i * 10 && 0 <= c < n * n ==> patchArray[s, c] == want[s][c]
      {
        var x := Offset(value.width, n, i, 10);
        OffsetInBounds(value.width, n, i, 10);
        for j := 0 to 10
          invariant forall s, c :: 0 <= s < FlatIndex(i, j, 10) && 0 <= c < n * n ==> patchArray[s, c] == want[s][c]
        {
          var y := Offset(value.height, n, j, 10);
          OffsetInBounds(value.height, n, j, 10);
          var pels := value.crop(x, y, n);
          GridPatchAt(value, n, GridCount, GridCount, i, j);
          StoreWindow(patchArray, i * 10 + j, pels, mean, gaussianArray);
        }
      }
      ghost var rows := Rows(patchArray);
      forall s | 0 <= s < 100
        ensures rows[s] == want[s]
      {
      }
    }

    /**
     * The second half of `map`: entry `i * n * n + j` of the `n^2`-by-`n^2`
     * buffer is set to zero and then accumulates `patchArray[k][i] * patchArray[k][j]`
     * over the 100 patches.
     */
    method AccumulateCovariance(patchArray: array2<real>) returns (covarianceArray: array<real>)
      requires patchArray.Length0 == 100 && patchArray.Length1 == n * n
      ensures fresh(covarianceArray)
      ensures covarianceArray[..] == CovarianceOf(Rows(patchArray), n * n)
    {
      var nn := n * n;
      ghost var vs := Rows(patchArray);
      ghost var want := CovarianceOf(vs, nn);
      covarianceArray := new real[nn * nn];
      for i := 0 to nn
        invariant i * nn <= nn * nn
        invariant forall m :: 0 <= m < i * nn ==> covarianceArray[m] == want[m]
      {
        for j := 0 to nn
          invariant FlatIndex(i, j, nn) <= nn * nn
          invariant forall m :: 0 <= m < FlatIndex(i, j, nn) ==> covarianceArray[m] == want[m]
        {
          var idx := i * nn + j;
          assert idx < nn * nn && want[idx] == OuterSum(vs, i, j) by {
            FlatIndexBound(i, j, nn, nn);
            FlatIndexDecode(i, j, nn);
          }
          AccumulateEntry(patchArray, covarianceArray, idx, i, j);
        }
        assert FlatIndex(i, nn, nn) == (i + 1) * nn;
      }
      assert covarianceArray[..] == want;
    }

    /**
     * `CovarianceMap.map`: a null or too small image writes nothing; any other
     * writes, under key 0, the symmetric sum of the outer products of its 100
     * centred, masked grid patches.
     */
    method Map(value: Option<Image>) returns (out: Option<(int, seq<real>)>)
      requires Valid()
      requires value.Some? ==> Fits(value.value, n)
      ensures out.None? <==> !Usable(value, n)
      ensures Usable(value, n) ==> (GridPatchesFit(value.value, n) &&
        out == Some((0, CovarianceOf(WindowAll(GridPatches(value.value, n, GridCount, GridCount), mean, gaussianArray[..]), n * n))))
      ensures out.Some? ==> Symmetric(out.value.1, n * n)
    {
      if value.Some? && value.value.width > n && value.value.height > n {
        var patchArray := CollectPatches(value.value);
        var covarianceArray := AccumulateCovariance(patchArray);
        out := Some((0, covarianceArray[..]));
        CovarianceSymmetric(Rows(patchArray), n * n);
      } else {
        out := None;
      }
    }
  }

  /** The grid of a usable image yields whole patches (a name for the well-formedness of `Map`'s contract). */
  ghost predicate GridPatchesFit(img: Image, n: nat)
    requires n < img.width && n < img.height
  {
    AllLength(GridPatches(img, n, GridCount, GridCount), n * n)
  }

  /**
   * `CovarianceReduce.reduce`: add every value into a zero `n^2`-by-`n^2`
   * matrix and always write the result, the zero matrix when no value arrived.
   */
  method CovarianceReduce(key: int, values: seq<seq<real>>, n: nat) returns (out: (int, seq<real>))
    requires AllLength(values, (n * n) * (n * n))
    ensures out.0 == key && out.1 == SumVectors(values, (n * n) * (n * n))
    ensures |values| == 0 ==> out.1 == Zeros((n * n) * (n * n))
  {
    var cov := Zeros((n * n) * (n * n));
    assert values[..0] == [];
    for t := 0 to |values|
      invariant cov == SumVectors(values[..t], (n * n) * (n * n))
    {
      assert values[..t + 1][..t] == values[..t];
      cov := Add(cov, values[t]);
    }
    assert values[..|values|] == values;
    out := (key, cov);
  }

  /**
   * One slot of `CovarianceMap.map`'s patch array: sample `k` of row `slot`
   * becomes `(pels[k] - mean[k]) * gaussian[k]`; the other rows are left alone.
   */
  method StoreWindow(patchArray: array2<real>, slot: nat, pels: seq<real>, mean: seq<real>, gaussian: array<real>)
    requires slot < patchArray.Length0
    requires |pels| == |mean| == gaussian.Length == patchArray.Length1
    modifies patchArray
    ensures forall c :: 0 <= c < patchArray.Length1 ==> patchArray[slot, c] == Window(pels, mean, gaussian[..])[c]
    ensures forall s, c :: 0 <= s < patchArray.Length0 && s != slot && 0 <= c < patchArray.Length1 ==>
              patchArray[s, c] == old(patchArray[s, c])
  {
    for k := 0 to patchArray.Length1
      invariant forall c :: 0 <= c < k ==> patchArray[slot, c] == Window(pels, mean, gaussian[..])[c]
      invariant forall s, c :: 0 <= s < patchArray.Length0 && s != slot && 0 <= c < patchArray.Length1 ==>
                  patchArray[s, c] == old(patchArray[s, c])
    {
      patchArray[slot, k] := (pels[k] - mean[k]) * gaussian[k];
    }
  }

  /** The first loop of `setup`: store every weight at `i * n + j` and add it to the running sum. */
  method StoreWeights(raw: seq<real>, n: nat) returns (g: array<real>, gaussianSum: real)
    requires |raw| == n * n
    ensures fresh(g) && g[..] == raw && gaussianSum == SumReals(raw)
  {
    g := new real[n * n];
    gaussianSum := 0.0;
    assert raw[..0] == [];
    for i := 0 to n
      invariant i * n <= n * n
      invariant forall m :: 0 <= m < i * n ==> g[m] == raw[m]
      invariant gaussianSum == SumReals(raw[..i * n])
    {
      assert i * n + n <= n * n by {
        MulMonotone(i + 1, n, n);
      }
      assert (i + 1) * n == i * n + n;
      for j := 0 to n
        invariant forall m :: 0 <= m < i * n + j ==> g[m] == raw[m]
        invariant gaussianSum == SumReals(raw[..i * n + j])
      {
        g[i * n + j] := raw[i * n + j];
        assert raw[..i * n + j + 1][..i * n + j] == raw[..i * n + j];
        gaussianSum := gaussianSum + g[i * n + j];
      }
    }
    assert raw[..n * n] == raw;
  }

  /** The second loop of `setup`: multiply every stored weight by `n * n / gaussianSum`. */
  method NormalizeWeights(g: array<real>, n: nat, gaussianSum: real)
    requires g.Length == n * n && gaussianSum != 0.0
    modifies g
    ensures forall m :: 0 <= m < g.Length ==> g[m] == old(g[m]) * ((n * n) as real / gaussianSum)
  {
    ghost var factor := (n * n) as real / gaussianSum;
    for i := 0 to n
      invariant i * n <= n * n
      invariant forall m :: 0 <= m < n * n ==> g[m] == if m < i * n then old(g[m]) * factor else old(g[m])
    {
      assert i * n + n <= n * n by {
        MulMonotone(i + 1, n, n);
      }
      assert (i + 1) * n == i * n + n;
      for j := 0 to n
        invariant forall m :: 0 <= m < n * n ==> g[m] == if m < i * n + j then old(g[m]) * factor else old(g[m])
      {
        g[i * n + j] := g[i * n + j] * ((n * n) as real / gaussianSum);
      }
    }
  }

  /** The innermost loop of `map`: entry `idx` is reset and then accumulates the products of columns `i` and `j`. */
  method AccumulateEntry(patchArray: array2<real>, covarianceArray: array<real>, idx: nat, i: nat, j: nat)
    requires i < patchArray.Length1 && j < patchArray.Length1 && patchArray.Length0 == 100
    requires idx < covarianceArray.Length
    modifies covarianceArray
    ensures covarianceArray[idx] == OuterSum(Rows(patchArray), i, j)
    ensures forall m :: 0 <= m < covarianceArray.Length && m != idx ==> covarianceArray[m] == old(covarianceArray[m])
  {
    ghost var vs := Rows(patchArray);
    covarianceArray[idx] := 0.0;
    assert vs[..0] == [];
    for k := 0 to 100
      invariant forall m :: 0 <= m < covarianceArray.Length && m != idx ==> covarianceArray[m] == old(covarianceArray[m])
      invariant covarianceArray[idx] == OuterSum(vs[..k], i, j)
    {
      OuterSumStep(vs, k, i, j);
      assert vs[k][i] == patchArray[k, i] && vs[k][j] == patchArray[k, j];
      covarianceArray[idx] := covarianceArray[idx] + patchArray[k, i] * patchArray[k, j];
    }
    assert vs[..100] == vs;
  }

  // ---------------------------------------------------------------------------
  // Properties

  lemma SumRealsPositive(s: seq<real>)
    requires |s| > 0 && forall k :: 0 <= k < |s| ==> s[k] > 0.0
    ensures SumReals(s) > 0.0
  {
    if |s| > 1 {
      SumRealsPositive(s[..|s| - 1]);
    }
  }

  /** Scaling every term scales the sum. */
  lemma {:induction false} SumRealsScale(s: seq<real>, c: real)
    ensures SumReals(Scale(s, c)) == SumReals(s) * c
  {
    if |s| > 0 {
      var a, b := Scale(s, c)[..|s| - 1], Scale(s[..|s| - 1], c);
      forall k | 0 <= k < |s| - 1
        ensures a[k] == b[k]
      {
      }
      assert a == b;
      SumRealsScale(s[..|s| - 1], c);
    }
  }

  /** The normalised mask adds up to `n * n`, and every weight stays positive. */
  lemma NormalizedSum(raw: seq<real>, n: nat)
    requires |raw| > 0 && forall k :: 0 <= k < |raw| ==> raw[k] > 0.0
    ensures SumReals(raw) > 0.0
    ensures SumReals(Normalized(raw, n)) == (n * n) as real
    ensures 0 < n ==> forall k :: 0 <= k < |raw| ==> Normalized(raw, n)[k] > 0.0
  {
    SumRealsPositive(raw);
    NormalizedIsScaled(raw, n);
    SumRealsScale(raw, (n * n) as real / SumReals(raw));
    QuotientScale(SumReals(raw), (n * n) as real);
    if 0 < n {
      NormalizedPositive(raw, n);
    }
  }

  lemma NormalizedIsScaled(raw: seq<real>, n: nat)
    requires SumReals(raw) != 0.0
    ensures Normalized(raw, n) == Scale(raw, (n * n) as real / SumReals(raw))
  {
  }

  lemma NormalizedPositive(raw: seq<real>, n: nat)
    requires 0 < n && SumReals(raw) > 0.0 && forall k :: 0 <= k < |raw| ==> raw[k] > 0.0
    ensures forall k :: 0 <= k < |raw| ==> Normalized(raw, n)[k] > 0.0
  {
    var total := SumReals(raw);
    var x := (n * n) as real;
    assert x >= 1.0 by {
      MulMonotone(1, n, n);
    }
    forall k | 0 <= k < |raw|
      ensures Normalized(raw, n)[k] > 0.0
    {
      PositiveProduct(raw[k], x / total, total, x);
    }
  }

  lemma QuotientScale(total: real, x: real)
    requires total > 0.0
    ensures total * (x / total) == x
  {
  }

  lemma PositiveProduct(a: real, c: real, total: real, x: real)
    requires a > 0.0 && total > 0.0 && x >= 1.0 && c == x / total
    ensures a * c > 0.0
  {
    assert c > 0.0;
  }

  /** Extending the prefix by one vector adds that vector's product of samples `p` and `q`. */
  lemma OuterSumStep(vs: seq<seq<real>>, k: nat, p: nat, q: nat)
    requires k < |vs| && forall t :: 0 <= t < |vs| ==> p < |vs[t]| && q < |vs[t]|
    ensures OuterSum(vs[..k + 1], p, q) == OuterSum(vs[..k], p, q) + vs[k][p] * vs[k][q]
  {
    assert vs[..k + 1][..k] == vs[..k];
  }

  lemma {:induction false} OuterSumSymmetric(vs: seq<seq<real>>, p: nat, q: nat)
    requires forall t :: 0 <= t < |vs| ==> p < |vs[t]| && q < |vs[t]|
    ensures OuterSum(vs, p, q) == OuterSum(vs, q, p)
  {
    if |vs| > 0 {
      OuterSumSymmetric(vs[..|vs| - 1], p, q);
    }
  }

  /** The outer-product sum of any list of vectors is a symmetric matrix. */
  lemma CovarianceSymmetric(vs: seq<seq<real>>, w: nat)
    requires AllLength(vs, w)
    ensures Symmetric(CovarianceOf(vs, w), w)
  {
    var c := CovarianceOf(vs, w);
    forall p, q | 0 <= p < w && 0 <= q < w
      ensures Entry(c, w, p, q) == Entry(c, w, q, p)
    {
      FlatIndexBound(p, q, w, w);
      FlatIndexBound(q, p, w, w);
      FlatIndexDecode(p, q, w);
      FlatIndexDecode(q, p, w);
      OuterSumSymmetric(vs, p, q);
    }
  }

  /** With `m` copies of one vector `v`, entry `(p, q)` of the matrix is `m * v[p] * v[q]`. */
  lemma {:induction false} OuterSumCopies(v: seq<real>, m: nat, p: nat, q: nat)
    requires p < |v| && q < |v|
    ensures OuterSum(seq(m, t => v), p, q) == (m as real) * v[p] * v[q]
  {
    if m > 0 {
      assert seq(m, t => v)[..m - 1] == seq(m - 1, t => v);
      OuterSumCopies(v, m - 1, p, q);
    }
  }

  /** An image whose centred, masked patches all equal `v` contributes `m * (v outer v)`. */
  lemma CovarianceOfCopies(v: seq<real>, m: nat)
    ensures AllLength(seq(m, t => v), |v|)
    ensures forall p, q :: (0 <= p < |v| && 0 <= q < |v|) ==>
              Entry(CovarianceOf(seq(m, t => v), |v|), |v|, p, q) == (m as real) * v[p] * v[q]
  {
    var w := |v|;
    forall p, q | 0 <= p < w && 0 <= q < w
      ensures Entry(CovarianceOf(seq(m, t => v), w), w, p, q) == (m as real) * v[p] * v[q]
    {
      FlatIndexBound(p, q, w, w);
      FlatIndexDecode(p, q, w);
      OuterSumCopies(v, m, p, q);
    }
  }

  /** A patch equal to the mean is centred to the zero vector and adds nothing to the matrix. */
  lemma MeanPatchAddsNothing(vs: seq<seq<real>>, mean: seq<real>, gaussian: seq<real>)
    requires AllLength(vs, |mean|) && |mean| == |gaussian|
    ensures Window(mean, mean, gaussian) == Zeros(|mean|)
    ensures AllLength(vs + [Window(mean, mean, gaussian)], |mean|)
    ensures CovarianceOf(vs + [Window(mean, mean, gaussian)], |mean|) == CovarianceOf(vs, |mean|)
  {
    var w := |mean|;
    var z := Window(mean, mean, gaussian);
    assert z == Zeros(w);
    var vs' := vs + [z];
    assert vs'[..|vs'| - 1] == vs;
    var a, b := CovarianceOf(vs', w), CovarianceOf(vs, w);
    forall m | 0 <= m < w * w
      ensures a[m] == b[m]
    {
      FlatIndexRange(m, w, w);
      FlatIndexOnto(m, w, w);
    }
  }

  /**
   * Sample `k` of a sum of centred, masked patches: when every `vs[t][k]` is
   * `(ps[t][k] - mean) * weight`, the sum of the `vs` at `k` is
   * `(sum of the ps at k - count * mean) * weight`, `count` being `|ps|`.
   */
  lemma {:induction false} CentredSumAt(vs: seq<seq<real>>, ps: seq<seq<real>>, len: nat, k: nat,
                                        count: real, mean: real, weight: real)
    requires AllLength(vs, len) && AllLength(ps, len) && |vs| == |ps| && k < len && count == |ps| as real
    requires forall t :: 0 <= t < |vs| ==> vs[t][k] == (ps[t][k] - mean) * weight
    ensures SumVectors(vs, len)[k] == (SumVectors(ps, len)[k] - count * mean) * weight
  {
    if |vs| > 0 {
      var last := |vs| - 1;
      var vsFront, psFront := vs[..last], ps[..last];
      assert AllLength(vsFront, len) && AllLength(psFront, len);
      assert forall t :: 0 <= t < |vsFront| ==> vsFront[t][k] == (psFront[t][k] - mean) * weight by {
        forall t | 0 <= t < |vsFront|
          ensures vsFront[t][k] == (psFront[t][k] - mean) * weight
        {
          assert vsFront[t] == vs[t] && psFront[t] == ps[t];
        }
      }
      CentredSumAt(vsFront, psFront, len, k, count - 1.0, mean, weight);
      var lastV, lastP := vs[last][k], ps[last][k];
      assert lastV == (lastP - mean) * weight;
      assert SumVectors(vs, len)[k] == SumVectors(vsFront, len)[k] + lastV;
      assert SumVectors(ps, len)[k] == SumVectors(psFront, len)[k] + lastP;
      CentreStep(SumVectors(vs, len)[k], SumVectors(vsFront, len)[k], SumVectors(psFront, len)[k],
                 lastV, lastP, SumVectors(ps, len)[k], count - 1.0, count, mean, weight);
    } else {
      NothingCentred(SumVectors(vs, len)[k], SumVectors(ps, len)[k], count, mean, weight);
    }
  }

  /** The arithmetic of one step of `CentredSumAt`. */
  lemma CentreStep(total: real, prev: real, before: real, lastV: real, last: real, sum: real,
                   count: real, countNext: real, mean: real, weight: real)
    requires prev == (before - count * mean) * weight
    requires lastV == (last - mean) * weight && total == prev + lastV
    requires sum == before + last && countNext == count + 1.0
    ensures total == (sum - countNext * mean) * weight
  {
  }

  /** The arithmetic of the empty case of `CentredSumAt`. */
  lemma NothingCentred(total: real, sum: real, count: real, mean: real, weight: real)
    requires total == 0.0 && sum == 0.0 && count == 0.0
    ensures total == (sum - count * mean) * weight
  {
  }

  /**
   * Centred on their own mean, the 100 patches one image yields add up to
   * zero at every pixel, whatever the mask.
   */
  lemma CentredOnOwnMean(ps: seq<seq<real>>, len: nat, mean: seq<real>, gaussian: seq<real>)
    requires AllLength(ps, len) && |ps| == 100
    requires |gaussian| == len && mean == Scale(SumVectors(ps, len), 1.0 / 100.0)
    ensures SumVectors(WindowAll(ps, mean, gaussian), len) == Zeros(len)
  {
    var vs := WindowAll(ps, mean, gaussian);
    var total := SumVectors(vs, len);
    forall k | 0 <= k < len
      ensures total[k] == 0.0
    {
      assert forall t :: 0 <= t < |vs| ==> vs[t][k] == (ps[t][k] - mean[k]) * gaussian[k];
      CentredSumAt(vs, ps, len, k, 100.0, mean[k], gaussian[k]);
      var sum := SumVectors(ps, len)[k];
      assert mean[k] == sum * (1.0 / 100.0);
      assert sum - 100.0 * mean[k] == 0.0;
    }
  }

  /**
   * The two phases sample the same grid: centred on an image's own phase-1
   * mean, that image's 100 patches add up to zero at every pixel, whatever
   * the mask.
   */
  lemma CentredGridSumsToZero(img: Image, n: nat, gaussian: seq<real>)
    requires Fits(img, n) && n < img.width && n < img.height && |gaussian| == n * n
    ensures AllLength(GridPatches(img, n, GridCount, GridCount), n * n)
    ensures SumVectors(WindowAll(GridPatches(img, n, GridCount, GridCount), GridMean(img, n, GridCount, GridCount), gaussian), n * n)
         == Zeros(n * n)
  {
    GridPatchLengths(img, n, GridCount, GridCount);
    var ps := GridPatches(img, n, GridCount, GridCount);
    CentredOnOwnMean(ps, n * n, GridMean(img, n, GridCount, GridCount), gaussian);
  }

  /**
   * The reducer is safe as a combiner: reducing the sums of any grouping of
   * the values gives the sum of all of them.
   */
  lemma CovarianceCombinerGrouping(groups: seq<seq<seq<real>>>, n: nat)
    requires forall g :: 0 <= g < |groups| ==> AllLength(groups[g], (n * n) * (n * n))
    ensures AllLength(Flatten(groups), (n * n) * (n * n))
    ensures AllLength(seq(|groups|, g requires 0 <= g < |groups| => SumVectors(groups[g], (n * n) * (n * n))), (n * n) * (n * n))
    ensures SumVectors(seq(|groups|, g requires 0 <= g < |groups| => SumVectors(groups[g], (n * n) * (n * n))), (n * n) * (n * n))
         == SumVectors(Flatten(groups), (n * n) * (n * n))
  {
    SumVectorsFlatten(groups, (n * n) * (n * n));
  }

  /** Nor does the order in which two batches of values arrive matter. */
  lemma CovarianceReduceOrder(a: seq<seq<real>>, b: seq<seq<real>>, len: nat)
    requires AllLength(a, len) && AllLength(b, len)
    ensures AllLength(a + b, len) && AllLength(b + a, len)
    ensures SumVectors(a + b, len) == SumVectors(b + a, len)
  {
    SumVectorsAppend(a, b, len);
    SumVectorsAppend(b, a, len);
    AddCommutative(SumVectors(a, len), SumVectors(b, len));
  }

  /** Summing per-image matrices that are symmetric gives a symmetric global matrix. */
  lemma ReducedCovarianceSymmetric(values: seq<seq<real>>, n: nat)
    requires AllLength(values, (n * n) * (n * n))
    requires forall t :: 0 <= t < |values| ==> Symmetric(values[t], n * n)
    ensures Symmetric(SumVectors(values, (n * n) * (n * n)), n * n)
  {
    SumVectorsSymmetric(values, n * n);
  }
}
