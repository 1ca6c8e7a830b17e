/** A grayscale intensity buffer (a 2-D numpy array of the source) and
    numpy's basic two-axis slicing `a[r0:r1, c0:c1]` with in-range bounds. */
module Images {

  datatype Image = Image(height: nat, width: nat, pixels: seq<seq<int>>) {

    /** The buffer is rectangular: `height` rows of `width` samples each. */
    predicate Valid() {
      |pixels| == height &&
      forall y :: 0 <= y < |pixels| ==> |pixels[y]| == width
    }

    /** Number of samples, numpy's `a.size`. */
    function Size(): nat {
      height * width
    }
  }

  /** The sub-view `img[r0:r1, c0:c1]`; the source only ever slices inside
      the buffer, so Python's clamping of out-of-range bounds never applies. */
  function Slice(img: Image, r0: nat, r1: nat, c0: nat, c1: nat): (s: Image)
    requires img.Valid()
    requires r0 <= r1 <= img.height && c0 <= c1 <= img.width
    ensures s.Valid()
    ensures s.height == r1 - r0 && s.width == c1 - c0
    ensures forall y, x :: 0 <= y < s.height && 0 <= x < s.width ==>
              s.pixels[y][x] == img.pixels[r0 + y][c0 + x]
  {
    Image(r1 - r0, c1 - c0,
          seq(r1 - r0, y requires 0 <= y < r1 - r0 => img.pixels[r0 + y][c0..c1]))
  }

  /** `np.count_nonzero` over every sample of a buffer: at most the number
      of samples, and zero exactly when every sample is zero. */
  function CountNonzero(rows: seq<seq<int>>): (n: nat)
    ensures n <= SampleCount(rows)
    ensures n == 0 <==> forall y, x :: 0 <= y < |rows| && 0 <= x < |rows[y]| ==> rows[y][x] == 0
  {
    if rows == [] then 0
    else
      var rest := CountNonzero(rows[1..]);
      assert forall y, x :: 1 <= y < |rows| && 0 <= x < |rows[y]| ==> rows[y][x] == rows[1..][y - 1][x];
      CountNonzeroRow(rows[0]) + rest
  }

  function CountNonzeroRow(row: seq<int>): (n: nat)
    ensures n <= |row|
    ensures n == 0 <==> forall x :: 0 <= x < |row| ==> row[x] == 0
  {
    if row == [] then 0
    else
      var rest := CountNonzeroRow(row[1..]);
      assert forall x :: 1 <= x < |row| ==> row[x] == row[1..][x - 1];
      (if row[0] != 0 then 1 else 0) + rest
  }

  /** The number of samples in a buffer, row by row. */
  function SampleCount(rows: seq<seq<int>>): nat {
    if rows == [] then 0 else |rows[0]| + SampleCount(rows[1..])
  }
}
