/** The orientation windows of `bin_share` inside `looks_like_X`: gradient
    angles in degrees are binned into windows of half-width 22.5 around the
    centres 0, 45, 90 and 135, the window around 0 wrapping past 180. */
module Orientation {

  const HalfWidth: real := 22.5

  /** The four window centres, in the order the source computes the shares. */
  const Centers: seq<real> := [0.0, 45.0, 90.0, 135.0]

  /** Python's float `%` with a positive modulus: the remainder takes the
      sign of the modulus, so it lies in `[0, m)`, and differs from `x` by
      a whole number of moduli. */
  function PyMod(x: real, m: real): (r: real)
    requires m > 0.0
    ensures 0.0 <= r < m
    ensures (x - r) / m == ((x - r) / m).Floor as real
  {
    var q := (x / m).Floor;
    var r := x - m * q as real;
    assert x / m - 1.0 < q as real <= x / m;
    assert x == m * (x / m);
    var f := x / m - q as real;
    assert r == m * f;
    assert 0.0 <= f < 1.0;
    assert 0.0 <= m * f;
    assert m * f < m by {
      assert 1.0 - f > 0.0;
      assert m * (1.0 - f) > 0.0;
      assert m * (1.0 - f) == m - m * f;
    }
    assert (x - r) / m == q as real;
    assert r < m;
    r
  }

  /** `low = (center - width) % 180.0`: a bound in `[0, 180)`, equal to
      `center - width` itself when that is already in range. */
  function Low(center: real): (low: real)
    ensures 0.0 <= low < 180.0
    ensures 0.0 <= center - HalfWidth < 180.0 ==> low == center - HalfWidth
  {
    PyModInRange(center - HalfWidth);
    PyMod(center - HalfWidth, 180.0)
  }

  /** `high = (center + width) % 180.0`: a bound in `[0, 180)`, equal to
      `center + width` itself when that is already in range. */
  function High(center: real): (high: real)
    ensures 0.0 <= high < 180.0
    ensures 0.0 <= center + HalfWidth < 180.0 ==> high == center + HalfWidth
  {
    PyModInRange(center + HalfWidth);
    PyMod(center + HalfWidth, 180.0)
  }

  /** The mask of `bin_share`: a half-open `[low, high)` test, or its
      wrapped-around form when `low >= high`. The window around 0 is the
      wrapped `a >= 157.5 or a < 22.5`; the other three are the plain
      intervals `[center - 22.5, center + 22.5)`. */
  predicate InWindow(a: real, center: real): (inside: bool)
    ensures center == 0.0 ==> (inside <==> a >= 157.5 || a < 22.5)
    ensures center in {45.0, 90.0, 135.0} ==>
              (inside <==> center - HalfWidth <= a < center + HalfWidth)
  {
    WindowBounds();
    var low, high := Low(center), High(center);
    if low < high then low <= a < high else a >= low || a < high
  }

  /** The bounds the four centres produce. */
  lemma WindowBounds()
    ensures Low(0.0) == 157.5 && High(0.0) == 22.5
    ensures Low(45.0) == 22.5 && High(45.0) == 67.5
    ensures Low(90.0) == 67.5 && High(90.0) == 112.5
    ensures Low(135.0) == 112.5 && High(135.0) == 157.5
  {
    PyModAt(-22.5, -1, 157.5);
  }

  /** A value already in `[0, 180)` is its own remainder. */
  lemma PyModInRange(x: real)
    ensures 0.0 <= x < 180.0 ==> PyMod(x, 180.0) == x
  {
    if 0.0 <= x < 180.0 {
      PyModAt(x, 0, x);
    }
  }

  /** The remainder is determined by any quotient that puts it in range. */
  lemma PyModAt(x: real, q: int, r: real)
    requires 0.0 <= r < 180.0 && x == 180.0 * q as real + r
    ensures PyMod(x, 180.0) == r
  {
    assert x / 180.0 == q as real + r / 180.0;
    assert (x / 180.0).Floor == q;
  }

  /** Every angle falls in exactly one of the four windows: the windows
      partition `[0, 180)` (and, because the window around 0 is open-ended
      on both sides once wrapped, every other real as well). */
  lemma WindowsPartition(a: real)
    ensures exists k :: 0 <= k < 4 && InWindow(a, Centers[k])
    ensures forall k, k' :: 0 <= k < k' < 4 ==> !(InWindow(a, Centers[k]) && InWindow(a, Centers[k']))
  {
    WindowBounds();
    if a < 22.5 || a >= 157.5 {
      assert InWindow(a, Centers[0]);
    } else if a < 67.5 {
      assert InWindow(a, Centers[1]);
    } else if a < 112.5 {
      assert InWindow(a, Centers[2]);
    } else {
      assert InWindow(a, Centers[3]);
    }
  }

  /** A selected pixel: its undirected gradient angle and its magnitude. */
  datatype Sample = Sample(angle: real, magnitude: real)

  /** `bin_share(center)`: the summed magnitude of the samples in the
      window; with non-negative magnitudes it lies between zero and the
      total magnitude. */
  function BinShare(samples: seq<Sample>, center: real): (e: real)
    ensures (forall k :: 0 <= k < |samples| ==> samples[k].magnitude >= 0.0) ==>
              0.0 <= e <= TotalMagnitude(samples)
  {
    if samples == [] then 0.0
    else (if InWindow(samples[0].angle, center) then samples[0].magnitude else 0.0) +
         BinShare(samples[1..], center)
  }

  function TotalMagnitude(samples: seq<Sample>): real {
    if samples == [] then 0.0 else samples[0].magnitude + TotalMagnitude(samples[1..])
  }

  /** Because the windows partition the angles, `e0 + e45 + e90 + e135` is
      the whole selected magnitude: no sample is lost or counted twice. */
  lemma {:induction false} SharesCoverTotal(samples: seq<Sample>)
    ensures BinShare(samples, 0.0) + BinShare(samples, 45.0) +
            BinShare(samples, 90.0) + BinShare(samples, 135.0) == TotalMagnitude(samples)
  {
    if samples != [] {
      var a := samples[0].angle;
      WindowsPartition(a);
      WindowBounds();
      SharesCoverTotal(samples[1..]);
    }
  }
}
