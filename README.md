# Tic-tac-toe board reader: the discrete core

`tic_tac_toe.py` reads a photograph of a 3x3 tic-tac-toe board and reports
`"X Wins"`, `"O Wins"`, `"Draw"` or `"Ongoing"`. This project models its
discrete core in Dafny:

- **Board evaluator** (`Game`, `game.dfy`): `_check_winner` over a 3x3 grid
  of `Empty | X | O`. It looks at the rows, then the columns, then the main
  diagonal, then the anti-diagonal. After that it scans for an empty cell in
  row-major order. A reference definition of "three in a row" that does not
  depend on the scan order is proved equivalent to the scan.
- **Board assembly** (`BoardState`, `board_state.dfy`): `check_state` after
  the image is loaded. The cell side is `h // 3` by `w // 3`. Nine slices are
  classified in row-major order by nested loops, and the board is evaluated.
  Lemmas show the slices lie inside the image, are pairwise disjoint, and
  cover every sample except a remainder of fewer than three rows and columns.
- **Cell classifier** (`Classifier`, `classifier.dfy`): the crop margin, the
  ink-ratio emptiness test, and the detector cascade of `classify_cell`. The
  OpenCV stages and the three detectors are fields of a `Toolkit` value and
  are not interpreted.
- **Orientation windows** (`Orientation`, `orientation.dfy`): the `low`/`high`
  bounds of `bin_share`, computed with Python's float `%`, and the wrapped
  window test. The four windows partition the angles, so the four bin sums
  add up to the total selected magnitude.
- `Images` (`images.dfy`) holds the grayscale buffer and numpy slicing.
  `Wrappers` (`wrappers.dfy`) holds `Option` and `Result`.

Integer division `//` on the non-negative sizes here is Dafny's `/`. The
float comparisons become exact integer or real comparisons:

- `int(0.1 * n)` becomes `n / 10`.
- `white_ratio < 0.03` becomes `ink * 100 < 3 * size`.
- The window bounds 157.5, 22.5, 67.5 and 112.5 are exact binary fractions.

The two integer forms agree with the float computation for any image side
and size much below 2^50.

Zero-size cells: an image with fewer than three rows or columns gives
cells of height or width 0 (`h // 3 == 0`). The code cannot classify such a
cell. `cv2.GaussianBlur` (line 49) rejects an empty array. Past that, the
ratio at line 51 would divide by `bw.size == 0`. The model makes this an
error: `ClassifyCell` returns `Failure(EmptyRegion)` for a cell with no
samples. `CheckState` therefore fails exactly when the image has fewer than
three rows or fewer than three columns.

## Model

| member | source | states |
|---|---|---|
| `Game.LineWinner` | tic_tac_toe.py:30-38 | the chained test `a == b == c != ''` on one line. A reported symbol is non-empty and fills all three cells. When nothing is reported, the line is not filled by its first cell's non-empty symbol |
| `Game.LineCells` | tic_tac_toe.py:29-38 | each of the eight examined lines has three cells, all on the board. The table lists them in scan order: rows, columns, main diagonal, anti-diagonal |
| `Game.FirstWin` | tic_tac_toe.py:29-38 | the early `return` of the line loops. Whatever it reports is the result of one of the lines |
| `Game.EmptyFrom` | tic_tac_toe.py:39-42 | the row-major scan for `''` succeeds only if some cell from index `n` on is empty |
| `Game.CheckWinner` | tic_tac_toe.py:28-43 | `_check_winner`. A reported winner is non-empty and holds a whole row, column or diagonal. "Draw" is returned only for a full board, and "Ongoing" only for a board with an empty cell |
| `Game.ReportedLineIsWon` | tic_tac_toe.py:29-38 | the symbol the line scan reports has three in a row |
| `Game.FirstWinIsFirst` | tic_tac_toe.py:29-38 | the early-return scan over the per-line results returns `p` exactly when some line reports `p` and no earlier line reports anything |
| `Game.FirstWinNone` | tic_tac_toe.py:29-38 | the scan reports nothing exactly when no line reports a symbol |
| `Game.EmptyFromExists` | tic_tac_toe.py:39-42 | the row-major scan for `''` from cell index `n` succeeds exactly when some cell at index `n` or later is empty |
| `Game.EmptyFromZeroIsNotFull` | tic_tac_toe.py:39-43 | the full scan returns "Ongoing" exactly when the board is not full |
| `Game.LineTableMatchesReference` | tic_tac_toe.py:29-38 | the eight examined lines (three rows, three columns, two diagonals) are exactly the ways to have three in a row. Some line is won by `p` iff `p` has three in a row |
| `Game.WinIsFirstWinningLine` | tic_tac_toe.py:29-38 | `_check_winner` returns `p` wins iff `p` wins the first winning line in the order rows, columns, main diagonal, anti-diagonal |
| `Game.WinMeansThreeInARow` | tic_tac_toe.py:29-38 | a reported winner is non-empty and has three in a row. If anybody has three in a row, a win is reported |
| `Game.SoleWinnerWins` | tic_tac_toe.py:29-38 | when only `p` has three in a row, the result is `p` wins |
| `Game.EmptyLineNeverWins` | tic_tac_toe.py:30 | a line of three `''` cells is never a winning line, because of the `!= ''` guard |
| `Game.WinBeforeFull` | tic_tac_toe.py:29-43 | a full board with a winning line reports the win, never "Draw" |
| `Game.OngoingOrDraw` | tic_tac_toe.py:39-43 | with no winning line, the result is "Ongoing" iff some cell is empty and "Draw" iff the board is full |
| `Game.Render` | tic_tac_toe.py:31-43 | a win for X is labelled "X Wins" and a win for O "O Wins", naming the winner as `f"{sym} Wins"` does. A draw is "Draw" and a game in progress "Ongoing" |
| `Game.RenderedLabel` | tic_tac_toe.py:28-43 | `_check_winner` always returns one of the four strings |
| `Game.RenderInjective` | tic_tac_toe.py:31-43 | distinct verdicts render as distinct strings, so the label determines the verdict |
| `Game.TopRowOWins` | tic_tac_toe.py:29-31 | a top row of O with all else empty gives "O Wins" |
| `Game.CentreXOngoing` | tic_tac_toe.py:39-42 | a lone X in the centre gives "Ongoing" |
| `Game.FullBoardWithoutLineIsDraw` | tic_tac_toe.py:39-43 | a full board without three in a row gives "Draw" |
| `Images.Slice` | tic_tac_toe.py:22 | an in-range slice `a[r0:r1, c0:c1]` is rectangular, has size `(r1-r0) x (c1-c0)`, and its sample `(y, x)` is the image's `(r0+y, c0+x)` |
| `Images.CountNonzero` | tic_tac_toe.py:51 | `np.count_nonzero(bw)` is at most the number of samples, and zero exactly when every sample is zero |
| `BoardState.CellSpan` | tic_tac_toe.py:17 | `n // 3` leaves a remainder of fewer than three: `3c <= n < 3c + 3` |
| `BoardState.InCell` | tic_tac_toe.py:22 | the sample set of slice `(i, j)`. A sample of any of the nine cells is a sample of the image |
| `BoardState.CellWithinImage` | tic_tac_toe.py:17-22 | every cell `(i, j)` ends inside the image: `(i+1)*ch <= h` and `(j+1)*cw <= w` |
| `BoardState.CellsDisjoint` | tic_tac_toe.py:17-22 | a sample lying in cells `(i, j)` and `(k, l)` forces `i == k` and `j == l` |
| `BoardState.CellsCoverAllButRemainder` | tic_tac_toe.py:17-22 | a sample lies in some cell iff its row is below `3*ch` and its column below `3*cw`. Only the remainder is dropped |
| `BoardState.CellRegion` | tic_tac_toe.py:22 | cell `(i, j)` is `ch x cw` and holds the image samples at offset `(i*ch, j*cw)` |
| `BoardState.ClassifiedBoard` | tic_tac_toe.py:18-25 | the assembled board is 3 rows of 3, and row `i`, column `j` holds the classification of cell `(i, j)` |
| `BoardState.CheckState` | tic_tac_toe.py:16-26 | fails iff the image has fewer than 3 rows or columns (zero-size cells). Otherwise it returns the label of the row-major board of the nine classifications |
| `Classifier.Margin` | tic_tac_toe.py:47 | the margin `m` is the largest with `10*m <= min(h, w)` |
| `Classifier.CropTakenIffNonEmpty` | tic_tac_toe.py:47-48 | the guard `min(h, w) > 2*m` holds iff `min(h, w) >= 1`. Only a zero-size cell skips the crop |
| `Classifier.CropRegion` | tic_tac_toe.py:46-48 | a non-empty cell is cropped to `(h-2m) x (w-2m)`, both positive, holding the cell's samples offset by `m`. A zero-size cell is left as is |
| `Classifier.NearlyBlank` | tic_tac_toe.py:51-52 | for a region with samples, `ink*100 < 3*size` holds exactly when `ink / size < 0.03` |
| `Classifier.Cascade` | tic_tac_toe.py:52-60 | the result is '' exactly when the region is nearly blank. An accepted ring gives 'O'. 'X' needs one of the two X detectors |
| `Classifier.CascadeIsFirstMatch` | tic_tac_toe.py:52-60 | the decision is the first match among the ordered strategies (blank gives '', ring gives 'O', gradient X gives 'X', segment X gives 'X'), with default 'O' |
| `Classifier.ClassifyCell` | tic_tac_toe.py:45-60 | classification fails iff the cell has no samples. Otherwise it yields one symbol |
| `Classifier.BlankShortCircuits` | tic_tac_toe.py:51-53 | when `white_ratio < 0.03` the result is '' whatever the detectors say |
| `Classifier.RingDetectorWins` | tic_tac_toe.py:54-55 | with enough ink, an accepting O detector gives 'O', never 'X' |
| `Classifier.XOnlyFromXDetectors` | tic_tac_toe.py:51-60 | the result is 'X' iff the region is non-empty, has enough ink, the O detector rejects it, and either X detector accepts it |
| `Classifier.UnrecognisedInkIsO` | tic_tac_toe.py:54-60 | with enough ink and both X detectors rejecting, the result is 'O' (the default) |
| `Orientation.PyMod` | tic_tac_toe.py:102-103 | Python's `%` with a positive modulus gives a value in `[0, m)` that differs from `x` by a whole multiple of `m` |
| `Orientation.Low` | tic_tac_toe.py:102 | `low` lies in `[0, 180)`, and equals `center - 22.5` whenever that is already in range |
| `Orientation.High` | tic_tac_toe.py:103 | `high` lies in `[0, 180)`, and equals `center + 22.5` whenever that is already in range |
| `Orientation.InWindow` | tic_tac_toe.py:104-107 | the window around 0 is the wrapped test `a >= 157.5 or a < 22.5`. The windows around 45, 90 and 135 are `[center - 22.5, center + 22.5)` |
| `Orientation.BinShare` | tic_tac_toe.py:105-108 | with non-negative magnitudes, a window's summed magnitude lies between 0 and the total magnitude |
| `Orientation.WindowBounds` | tic_tac_toe.py:101-112 | the centres 0, 45, 90 and 135 with width 22.5 give the bounds `[157.5, 22.5)` (wrapped), `[22.5, 67.5)`, `[67.5, 112.5)` and `[112.5, 157.5)` |
| `Orientation.WindowsPartition` | tic_tac_toe.py:101-112 | every angle lies in exactly one of the four windows |
| `Orientation.SharesCoverTotal` | tic_tac_toe.py:101-113 | `e0 + e45 + e90 + e135` equals the total magnitude of the selected samples. No sample is dropped or counted twice |

## Left out

- Image loading, the `ValueError` for an unreadable path, and the colour-to-gray conversion (tic_tac_toe.py:12-15) are file I/O and library calls. `CheckState` starts from the grayscale buffer. The `__main__` driver (147-150) is left out too.
- `looks_like_O` (62-88) is left out: the opening, contours, circularity with pi, and the aspect fudge. It is an uninterpreted field of `Toolkit`, as are the Gaussian blur and the Otsu threshold.
- `looks_like_X` beyond window membership and bin sums is left out: Sobel gradients, `sqrt`, `arctan2`, the 75th percentile, the 50-pixel minimum, share normalisation with `1e-6`, and the share thresholds (91-100, 113-119). These are floating-point numerics on library output.
- `hough_like_X` (121-145) is left out: Canny, the probabilistic Hough transform, segment angles and point-to-line distances. These are floating-point trigonometry on library output.
- `Orientation.BinShare` sums over exact reals, so it does not model float rounding in `np.sum`. The angle `% 180.0` of line 94 can round a tiny negative angle up to exactly 180.0. `WindowsPartition` covers that value too, because it holds for every real.
- `Classifier.ClassifyCell` uses the cropped region's size as the denominator of the white ratio. That equals `bw.size` because blurring and thresholding keep the shape. The detectors run lazily in the source, but they are pure, so evaluating them all gives the same decision.
- Threshold constants are fixed at the source's values. The source does not let callers override them.
- Slices are modelled as copied values, not numpy views. The cells are only read, so aliasing changes nothing.
