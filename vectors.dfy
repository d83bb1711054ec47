/**
 * Elementwise vector arithmetic over `real`, standing for the pixel buffers of
 * `FloatImage` (`add`, `scale`, a freshly allocated all-zero image) and for
 * the flattened square matrices the covariance job produces.
 */
module Vectors {

  /** Every vector of `vs` has length `len`. */
  predicate AllLength(vs: seq<seq<real>>, len: nat)
  {
    forall t :: 0 <= t < |vs| ==> |vs[t]| == len
  }

  /** A freshly allocated image: every sample is zero. */
  function Zeros(len: nat): (z: seq<real>)
    ensures |z| == len && forall k :: 0 <= k < len ==> z[k] == 0.0
  {
    seq(len, k => 0.0)
  }

  /** `FloatImage.add`: elementwise sum of two buffers of the same size. */
  function Add(a: seq<real>, b: seq<real>): (r: seq<real>)
    requires |a| == |b|
    ensures |r| == |a|
  {
    seq(|a|, k requires 0 <= k < |a| => a[k] + b[k])
  }

  /** `FloatImage.scale`: every sample multiplied by `c`. */
  function Scale(a: seq<real>, c: real): (r: seq<real>)
    ensures |r| == |a|
  {
    seq(|a|, k requires 0 <= k < |a| => a[k] * c)
  }

  /** The sum of a list of reals, accumulated from the front. */
  function SumReals(s: seq<real>): real
  {
    if |s| == 0 then 0.0 else SumReals(s[..|s| - 1]) + s[|s| - 1]
  }

  /**
   * The elementwise sum of a list of vectors, accumulated from the front into
   * a zero vector: what a loop `acc.add(v)` over the list leaves in `acc`.
   */
  function SumVectors(vs: seq<seq<real>>, len: nat): (r: seq<real>)
    requires AllLength(vs, len)
    ensures |r| == len
  {
    if |vs| == 0 then Zeros(len)
    else Add(SumVectors(vs[..|vs| - 1], len), vs[|vs| - 1])
  }

  /** The concatenation of a list of lists (all groups of a partition, in order). */
  function Flatten<T>(groups: seq<seq<T>>): seq<T>
  {
    if |groups| == 0 then [] else Flatten(groups[..|groups| - 1]) + groups[|groups| - 1]
  }

  /** The row-major index of row `p`, column `q` in an array whose rows have `w` entries. */
  function FlatIndex(p: nat, q: nat, w: nat): nat
  {
    p * w + q
  }

  /** The entry in row `p`, column `q` of a flattened `w`-by-`w` matrix. */
  function Entry(m: seq<real>, w: nat, p: nat, q: nat): real
    requires p < w && q < w && |m| == w * w
  {
    FlatIndexBound(p, q, w, w);
    m[FlatIndex(p, q, w)]
  }

  /** A flattened `w`-by-`w` matrix equal to its own transpose. */
  predicate Symmetric(m: seq<real>, w: nat)
  {
    |m| == w * w &&
    forall p, q :: 0 <= p < w && 0 <= q < w ==> Entry(m, w, p, q) == Entry(m, w, q, p)
  }

  // ---------------------------------------------------------------------------
  // Row-major flat indices

  lemma MulMonotone(a: int, b: int, w: nat)
    ensures a <= b ==> a * w <= b * w
  {
    if a <= b {
      assert b * w == a * w + (b - a) * w;
    }
  }

  /** Row-major index `p * w + q` of a `h`-by-`w` array stays inside the array. */
  lemma FlatIndexBound(p: nat, q: nat, w: nat, h: nat)
    requires p < h && q < w
    ensures FlatIndex(p, q, w) < h * w
  {
    MulMonotone(p + 1, h, w);
    assert (p + 1) * w == p * w + w;
  }

  /** A multiple of `w` strictly between `-w` and `w` is zero. */
  lemma MulSmall(k: int, w: nat)
    requires -(w as int) < k * w < w
    ensures k == 0
  {
    MulMonotone(1, k, w);
    MulMonotone(k, -1, w);
  }

  /** Row-major index `p * w + q` decodes back to the row `p` and the column `q`. */
  lemma FlatIndexDecode(p: nat, q: nat, w: nat)
    requires q < w
    ensures FlatIndex(p, q, w) / w == p && FlatIndex(p, q, w) % w == q
  {
    var x := p * w + q;
    var d, r := x / w, x % w;
    assert x == d * w + r && 0 <= r < w;
    assert (d - p) * w == d * w - p * w;
    MulSmall(d - p, w);
  }

  /** The row `s / w` and the column `s % w` of an index `s` of a `h`-by-`w` array are in range. */
  lemma FlatIndexRange(s: nat, w: nat, h: nat)
    requires s < h * w
    ensures w > 0 && s / w < h && s % w < w
  {
    MulMonotone(h, 0, w);
    MulMonotone(h, s / w, w);
    assert s == (s / w) * w + s % w;
  }

  /** Every index `s` of a `h`-by-`w` array is the row-major index of the pair `(s / w, s % w)`, in range by `FlatIndexRange`. */
  lemma FlatIndexOnto(s: nat, w: nat, h: nat)
    requires s < h * w
    ensures w > 0 && FlatIndex(s / w, s % w, w) == s
  {
    FlatIndexRange(s, w, h);
  }

  /** Distinct (row, column) pairs have distinct row-major indices. */
  lemma FlatIndexInjective(w: nat)
    ensures forall p: nat, q: nat, p': nat, q': nat ::
              (q < w && q' < w && FlatIndex(p, q, w) == FlatIndex(p', q', w)) ==> p == p' && q == q'
  {
    forall p: nat, q: nat, p': nat, q': nat |
      q < w && q' < w && FlatIndex(p, q, w) == FlatIndex(p', q', w)
      ensures p == p' && q == q'
    {
      FlatIndexDecode(p, q, w);
      FlatIndexDecode(p', q', w);
    }
  }

  // ---------------------------------------------------------------------------
  // Algebra of the sums

  lemma AddAssociative(a: seq<real>, b: seq<real>, c: seq<real>)
    requires |a| == |b| == |c|
    ensures Add(Add(a, b), c) == Add(a, Add(b, c))
  {
  }

  lemma AddCommutative(a: seq<real>, b: seq<real>)
    requires |a| == |b|
    ensures Add(a, b) == Add(b, a)
  {
  }

  lemma AddZeros(a: seq<real>)
    ensures Add(a, Zeros(|a|)) == a && Add(Zeros(|a|), a) == a
  {
  }

  /** Extending the prefix by one vector adds that vector to the prefix sum. */
  lemma SumVectorsStep(vs: seq<seq<real>>, k: nat, len: nat)
    requires AllLength(vs, len) && k < |vs|
    ensures AllLength(vs[..k], len) && AllLength(vs[..k + 1], len)
    ensures SumVectors(vs[..k + 1], len) == Add(SumVectors(vs[..k], len), vs[k])
  {
    assert vs[..k + 1][..k] == vs[..k];
  }

  /** The sum over a concatenation is the sum of the two partial sums. */
  lemma {:induction false} SumVectorsAppend(a: seq<seq<real>>, b: seq<seq<real>>, len: nat)
    requires AllLength(a, len) && AllLength(b, len)
    ensures AllLength(a + b, len)
    ensures SumVectors(a + b, len) == Add(SumVectors(a, len), SumVectors(b, len))
  {
    if |b| == 0 {
      assert a + b == a;
      AddZeros(SumVectors(a, len));
    } else {
      var b' := b[..|b| - 1];
      assert (a + b)[..|a + b| - 1] == a + b';
      assert AllLength(b', len);
      SumVectorsAppend(a, b', len);
      AddAssociative(SumVectors(a, len), SumVectors(b', len), b[|b| - 1]);
    }
  }

  /** The sum of the group sums equals the sum of all members of all groups. */
  lemma {:induction false} SumVectorsFlatten(groups: seq<seq<seq<real>>>, len: nat)
    requires forall g :: 0 <= g < |groups| ==> AllLength(groups[g], len)
    ensures AllLength(Flatten(groups), len)
    ensures AllLength(seq(|groups|, g requires 0 <= g < |groups| => SumVectors(groups[g], len)), len)
    ensures SumVectors(Flatten(groups), len)
         == SumVectors(seq(|groups|, g requires 0 <= g < |groups| => SumVectors(groups[g], len)), len)
  {
    var sums := seq(|groups|, g requires 0 <= g < |groups| => SumVectors(groups[g], len));
    assert AllLength(sums, len);
    if |groups| > 0 {
      var front := groups[..|groups| - 1];
      var last := groups[|groups| - 1];
      SumVectorsFlatten(front, len);
      var frontSums := seq(|front|, g requires 0 <= g < |front| => SumVectors(front[g], len));
      assert sums[..|sums| - 1] == frontSums;
      SumVectorsAppend(Flatten(front), last, len);
    }
  }

  /** The sum of `m` copies of `v` is `v` scaled by `m`. */
  lemma {:induction false} SumVectorsCopies(v: seq<real>, m: nat)
    ensures AllLength(seq(m, t => v), |v|)
    ensures SumVectors(seq(m, t => v), |v|) == Scale(v, m as real)
  {
    var vs := seq(m, t => v);
    if m > 0 {
      assert vs[..m - 1] == seq(m - 1, t => v);
      SumVectorsCopies(v, m - 1);
      var whole, split := Scale(v, m as real), Add(Scale(v, (m - 1) as real), v);
      forall k | 0 <= k < |v|
        ensures whole[k] == split[k]
      {
        assert v[k] * (m as real) == v[k] * ((m - 1) as real) + v[k];
      }
    }
  }

  /** The elementwise sum of two symmetric matrices is symmetric. */
  lemma AddSymmetric(a: seq<real>, b: seq<real>, w: nat)
    requires Symmetric(a, w) && Symmetric(b, w)
    ensures Symmetric(Add(a, b), w)
  {
    var s := Add(a, b);
    forall p, q | 0 <= p < w && 0 <= q < w
      ensures Entry(s, w, p, q) == Entry(s, w, q, p)
    {
      FlatIndexBound(p, q, w, w);
      FlatIndexBound(q, p, w, w);
      assert Entry(s, w, p, q) == Entry(a, w, p, q) + Entry(b, w, p, q);
      assert Entry(s, w, q, p) == Entry(a, w, q, p) + Entry(b, w, q, p);
    }
  }

  lemma ZerosSymmetric(w: nat)
    ensures Symmetric(Zeros(w * w), w)
  {
    forall p, q | 0 <= p < w && 0 <= q < w
      ensures Entry(Zeros(w * w), w, p, q) == Entry(Zeros(w * w), w, q, p)
    {
      FlatIndexBound(p, q, w, w);
      FlatIndexBound(q, p, w, w);
    }
  }

  /** Elementwise sums of symmetric matrices are symmetric. */
  lemma {:induction false} SumVectorsSymmetric(vs: seq<seq<real>>, w: nat)
    requires AllLength(vs, w * w)
    requires forall t :: 0 <= t < |vs| ==> Symmetric(vs[t], w)
    ensures Symmetric(SumVectors(vs, w * w), w)
  {
    if |vs| == 0 {
      ZerosSymmetric(w);
    } else {
      var front := vs[..|vs| - 1];
      assert AllLength(front, w * w);
      assert forall t :: 0 <= t < |front| ==> Symmetric(front[t], w) by {
        forall t | 0 <= t < |front| ensures Symmetric(front[t], w) {
          assert front[t] == vs[t];
        }
      }
      SumVectorsSymmetric(front, w);
      AddSymmetric(SumVectors(front, w * w), vs[|vs| - 1], w);
    }
  }
}
