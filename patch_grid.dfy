/**
 * The fixed sampling grid that both mappers of the covariance example walk:
 * the patch offsets `(W - N) * i / xCount`, the rule that skips images not
 * larger than a patch, and the list of patches one image yields.
 */
module PatchGrid {
  import opened Wrappers
  import opened Vectors

  /** Patches per image along each axis, as both mappers hard-code it. */
  const GridCount: nat := 10

  /**
   * A decoded image. `crop(x, y, size)` stands for the grayscale samples of
   * `input.crop(x, y, size, size).convert(FloatImage.RGB2GRAY)`, flattened row
   * by row: the image library itself is not part of this model.
   */
  datatype Image = Image(width: int, height: int, crop: (int, int, int) -> seq<real>)

  /** Every crop of a `n`-by-`n` window inside the image yields `n * n` samples. */
  ghost predicate Fits(img: Image, n: nat)
  {
    forall x, y :: 0 <= x && x + n <= img.width && 0 <= y && y + n <= img.height
      ==> |img.crop(x, y, n)| == n * n
  }

  /** The skip rule of both mappers: a non-null image strictly wider and taller than a patch. */
  predicate Usable(value: Option<Image>, n: nat): (u: bool)
    ensures u ==> value.Some? && n < value.value.width && n < value.value.height &&
                  |GridPatches(value.value, n, GridCount, GridCount)| == GridCount * GridCount
  {
    value.Some? && value.value.width > n && value.value.height > n
  }

  /**
   * The offset of the `i`-th of `count` patches along an axis of length
   * `extent`: Java integer division, which truncates and here agrees with
   * Dafny's `/` because the numerator is never negative.
   */
  function Offset(extent: int, n: nat, i: nat, count: nat): (o: int)
    requires n < extent && 0 < count
    ensures 0 <= o && o * count <= (extent - n) * i < o * count + count
  {
    MulMonotone(0, i, extent - n);
    DivBounds((extent - n) * i, count);
    (extent - n) * i / count
  }

  /** The quotient of truncating division of a non-negative number: the largest multiple of `c` not above `a`. */
  lemma DivBounds(a: int, c: int)
    requires 0 <= a && 0 < c
    ensures 0 <= a / c && (a / c) * c <= a < (a / c) * c + c
  {
    assert a == (a / c) * c + a % c;
  }

  /** The grid of `xCount * yCount` patches, slot `i * yCount + j` holding the patch at grid cell `(i, j)`. */
  function GridPatches(img: Image, n: nat, xCount: nat, yCount: nat): (ps: seq<seq<real>>)
    requires n < img.width && n < img.height && 0 < xCount && 0 < yCount
    ensures |ps| == xCount * yCount
  {
    seq(xCount * yCount, s requires 0 <= s < xCount * yCount =>
      img.crop(Offset(img.width, n, s / yCount, xCount), Offset(img.height, n, s % yCount, yCount), n))
  }

  // ---------------------------------------------------------------------------

  /** Integer division by a positive divisor is monotone. */
  lemma DivMonotone(a: int, b: int, c: int)
    requires a <= b && 0 < c
    ensures a / c <= b / c
  {
    assert a == (a / c) * c + a % c && b == (b / c) * c + b % c;
    // b / c + 1 <= a / c would put (b / c + 1) * c <= a <= b < (b / c + 1) * c
    MulMonotone(b / c + 1, a / c, c);
    assert (b / c + 1) * c == (b / c) * c + c;
  }

  /**
   * The crop stays inside the image: for every grid index the offset is
   * non-negative and leaves room for a whole patch, and the first offset is 0.
   */
  lemma OffsetInBounds(extent: int, n: nat, i: nat, count: nat)
    requires n < extent && i < count
    ensures 0 <= Offset(extent, n, i, count) && Offset(extent, n, i, count) + n <= extent
    ensures i == 0 ==> Offset(extent, n, i, count) == 0
  {
    var a := extent - n;
    MulMonotone(i, count, a);
    MulMonotone(0, i, a);
    DivMonotone(0, a * i, count);
    DivMonotone(a * i, a * count, count);
    FlatIndexDecode(a, 0, count);
    assert a * count == FlatIndex(a, 0, count);
  }

  /** Later grid indices never give smaller offsets. */
  lemma OffsetMonotone(extent: int, n: nat, i: nat, j: nat, count: nat)
    requires n < extent && i <= j && 0 < count
    ensures Offset(extent, n, i, count) <= Offset(extent, n, j, count)
  {
    MulMonotone(i, j, extent - n);
    DivMonotone((extent - n) * i, (extent - n) * j, count);
  }

  /** Every patch of the grid of a usable image is a whole `n`-by-`n` window. */
  lemma GridPatchLengths(img: Image, n: nat, xCount: nat, yCount: nat)
    requires Fits(img, n)
    requires n < img.width && n < img.height && 0 < xCount && 0 < yCount
    ensures AllLength(GridPatches(img, n, xCount, yCount), n * n)
  {
    var ps := GridPatches(img, n, xCount, yCount);
    forall s | 0 <= s < |ps|
      ensures |ps[s]| == n * n
    {
      FlatIndexRange(s, yCount, xCount);
      FlatIndexOnto(s, yCount, xCount);
      OffsetInBounds(img.width, n, s / yCount, xCount);
      OffsetInBounds(img.height, n, s % yCount, yCount);
    }
  }

  /** Slot `i * yCount + j` of the grid holds the patch at the offsets of cell `(i, j)`. */
  lemma GridPatchAt(img: Image, n: nat, xCount: nat, yCount: nat, i: nat, j: nat)
    requires n < img.width && n < img.height && i < xCount && j < yCount
    ensures FlatIndex(i, j, yCount) < xCount * yCount
    ensures GridPatches(img, n, xCount, yCount)[FlatIndex(i, j, yCount)]
         == img.crop(Offset(img.width, n, i, xCount), Offset(img.height, n, j, yCount), n)
  {
    FlatIndexBound(i, j, yCount, xCount);
    FlatIndexDecode(i, j, yCount);
  }

  /** Row `i` of the grid: slot `i * yCount + j` holds the crop at the row's offset and column `j`'s offset. */
  lemma GridRowAt(img: Image, n: nat, xCount: nat, yCount: nat, i: nat)
    requires n < img.width && n < img.height && i < xCount && 0 < yCount
    ensures forall j :: 0 <= j < yCount ==>
              FlatIndex(i, j, yCount) < |GridPatches(img, n, xCount, yCount)| &&
              GridPatches(img, n, xCount, yCount)[FlatIndex(i, j, yCount)]
              == img.crop(Offset(img.width, n, i, xCount), Offset(img.height, n, j, yCount), n)
  {
    forall j | 0 <= j < yCount
      ensures FlatIndex(i, j, yCount) < |GridPatches(img, n, xCount, yCount)|
      ensures GridPatches(img, n, xCount, yCount)[FlatIndex(i, j, yCount)]
              == img.crop(Offset(img.width, n, i, xCount), Offset(img.height, n, j, yCount), n)
    {
      GridPatchAt(img, n, xCount, yCount, i, j);
    }
  }
}
