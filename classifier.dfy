/** `classify_cell`: crop an inner margin, decide whether the cell is
    nearly blank, then try the O detector, the gradient X detector and the
    line-segment X detector in that order, defaulting to O. */
module Classifier {
  import opened Wrappers
  import opened Images
  import opened Game

  /** The image-processing stages a classification calls into. Their
      algorithms are not part of this model; each is a deterministic
      function of its input buffer. */
  datatype Toolkit = Toolkit(
    blur: Image -> Image,        // 5x5 Gaussian blur, sigma derived from the kernel
    binarize: Image -> Image,    // Otsu threshold, inverted: ink becomes non-zero
    looksLikeO: Image -> bool,   // ring detector, run on the binarized mask
    looksLikeX: Image -> bool,   // gradient-orientation detector, run on the blurred region
    houghLikeX: Image -> bool)   // line-segment detector, run on the blurred region

  /** A region with no samples cannot be blurred or measured. */
  datatype CellError = EmptyRegion

  /** EMPTY_WHITE_RATIO_THR = 0.03, written as a percentage. */
  const EmptyWhitePercent: nat := 3

  function Min(a: nat, b: nat): nat {
    if a <= b then a else b
  }

  /** `int(0.1 * min(h, w))`: one tenth of the shorter side, rounded down. */
  function Margin(h: nat, w: nat): (m: nat)
    ensures 10 * m <= Min(h, w) < 10 * m + 10
  {
    Min(h, w) / 10
  }

  /** The guard `min(h, w) > 2*m` holds for every cell with at least one
      sample per side; only a zero-size cell skips the crop. */
  lemma CropTakenIffNonEmpty(h: nat, w: nat)
    ensures Min(h, w) > 2 * Margin(h, w) <==> Min(h, w) >= 1
  {
  }

  /** The region the ink ratio and the detectors look at: the cell with `m`
      rows and columns removed on every side, or the cell itself when the
      guard fails. */
  function CropRegion(cell: Image): (roi: Image)
    requires cell.Valid()
    ensures roi.Valid()
    ensures Min(cell.height, cell.width) == 0 ==> roi == cell
    ensures Min(cell.height, cell.width) >= 1 ==>
              var m := Margin(cell.height, cell.width);
              && roi.height == cell.height - 2 * m >= 1
              && roi.width == cell.width - 2 * m >= 1
              && forall y, x :: 0 <= y < roi.height && 0 <= x < roi.width ==>
                   roi.pixels[y][x] == cell.pixels[m + y][m + x]
  {
    var h, w := cell.height, cell.width;
    var m := Margin(h, w);
    CropTakenIffNonEmpty(h, w);
    if Min(h, w) > 2 * m then Slice(cell, m, h - m, m, w - m) else cell
  }

  /** `white_ratio < 0.03`, i.e. `ink / size < 3 / 100`, without division;
      for a region with samples it is exactly the ratio test. */
  predicate NearlyBlank(ink: nat, size: nat): (blank: bool)
    ensures size > 0 ==> (blank <==> (ink as real) / (size as real) < 0.03)
  {
    RatioBelowIff(ink, size);
    ink * 100 < EmptyWhitePercent * size
  }

  lemma RatioBelowIff(ink: nat, size: nat)
    ensures size > 0 ==> (ink * 100 < EmptyWhitePercent * size <==> (ink as real) / (size as real) < 0.03)
  {
    if size > 0 {
      ScaledRatioBelow(ink as real, size as real);
    }
  }

  lemma ScaledRatioBelow(i: real, n: real)
    requires n > 0.0
    ensures i / n < 0.03 <==> 100.0 * i < 3.0 * n
  {
    var ratio := i / n;
    assert i == ratio * n;
    assert (0.03 - ratio) * n == 0.03 * n - i;
    if ratio < 0.03 {
      assert (0.03 - ratio) * n > 0.0;
    } else {
      assert (0.03 - ratio) * n <= 0.0;
    }
  }

  /** The decision order of `classify_cell` once the region is measured:
      blank regions are Empty whatever the detectors say, an accepted ring is
      never X, and X needs one of the X detectors. */
  function Cascade(nearlyBlank: bool, ring: bool, diagonal: bool, crossing: bool): (s: Symbol)
    ensures s == Empty <==> nearlyBlank
    ensures !nearlyBlank && ring ==> s == O
    ensures s == X ==> diagonal || crossing
  {
    if nearlyBlank then Empty
    else if ring then O
    else if diagonal then X
    else if crossing then X
    else O
  }

  /** The same decision written as an ordered list of strategies: the
      symbol of the first one that matches, or the default. */
  function FirstMatch(strategies: seq<(bool, Symbol)>, default: Symbol): Symbol {
    if strategies == [] then default
    else if strategies[0].0 then strategies[0].1
    else FirstMatch(strategies[1..], default)
  }

  lemma CascadeIsFirstMatch(nearlyBlank: bool, ring: bool, diagonal: bool, crossing: bool)
    ensures Cascade(nearlyBlank, ring, diagonal, crossing) ==
            FirstMatch([(nearlyBlank, Empty), (ring, O), (diagonal, X), (crossing, X)], O)
  {
    var s := [(nearlyBlank, Empty), (ring, O), (diagonal, X), (crossing, X)];
    assert s[4..] == [];
    assert FirstMatch(s[3..], O) == if crossing then X else O by {
      assert s[3..][1..] == s[4..];
    }
    assert FirstMatch(s[2..], O) == if diagonal then X else FirstMatch(s[3..], O) by {
      assert s[2..][1..] == s[3..];
    }
    assert FirstMatch(s[1..], O) == if ring then O else FirstMatch(s[2..], O) by {
      assert s[1..][1..] == s[2..];
    }
  }

  /** The stages of one classification, named for the lemmas below. */
  function InkCount(roi: Image, tk: Toolkit): nat {
    CountNonzero(tk.binarize(tk.blur(roi)).pixels)
  }

  /** `classify_cell`. The ratio's denominator is the size of the cropped
      region, which blurring and thresholding leave unchanged. The detectors
      are evaluated lazily in the source; they are pure, so evaluating all of
      them gives the same decision. */
  function ClassifyCell(cell: Image, tk: Toolkit): (r: Result<Symbol, CellError>)
    requires cell.Valid()
    ensures r.Failure? <==> cell.height == 0 || cell.width == 0
  {
    var roi := CropRegion(cell);
    if roi.Size() == 0 then Failure(EmptyRegion)
    else
      var blurred := tk.blur(roi);
      var mask := tk.binarize(blurred);
      Success(Cascade(NearlyBlank(CountNonzero(mask.pixels), roi.Size()),
                      tk.looksLikeO(mask), tk.looksLikeX(blurred), tk.houghLikeX(blurred)))
  }

  // ---------------------------------------------------------------------------
  // Properties of the decision.

  /** A nearly blank region is Empty whatever the detectors would say. */
  lemma BlankShortCircuits(cell: Image, tk: Toolkit)
    requires cell.Valid() && cell.height > 0 && cell.width > 0
    requires NearlyBlank(InkCount(CropRegion(cell), tk), CropRegion(cell).Size())
    ensures ClassifyCell(cell, tk) == Success(Empty)
  {
  }

  /** A region with enough ink that the ring detector accepts is O, never X. */
  lemma RingDetectorWins(cell: Image, tk: Toolkit)
    requires cell.Valid() && cell.height > 0 && cell.width > 0
    requires !NearlyBlank(InkCount(CropRegion(cell), tk), CropRegion(cell).Size())
    requires tk.looksLikeO(tk.binarize(tk.blur(CropRegion(cell))))
    ensures ClassifyCell(cell, tk) == Success(O)
  {
  }

  /** X is reported exactly when the region has ink, the ring detector
      rejects it, and one of the two X detectors accepts it. */
  lemma XOnlyFromXDetectors(cell: Image, tk: Toolkit)
    requires cell.Valid()
    ensures ClassifyCell(cell, tk) == Success(X) <==>
              var roi := CropRegion(cell);
              var blurred := tk.blur(roi);
              && roi.Size() > 0
              && !NearlyBlank(InkCount(roi, tk), roi.Size())
              && !tk.looksLikeO(tk.binarize(blurred))
              && (tk.looksLikeX(blurred) || tk.houghLikeX(blurred))
  {
  }

  /** A region with ink that no detector recognises defaults to O. */
  lemma UnrecognisedInkIsO(cell: Image, tk: Toolkit)
    requires cell.Valid() && cell.height > 0 && cell.width > 0
    requires !NearlyBlank(InkCount(CropRegion(cell), tk), CropRegion(cell).Size())
    requires !tk.looksLikeX(tk.blur(CropRegion(cell)))
    requires !tk.houghLikeX(tk.blur(CropRegion(cell)))
    ensures ClassifyCell(cell, tk) == Success(O)
  {
  }
}
