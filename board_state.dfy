/** `check_state`: split the grayscale image into a 3x3 grid of equal
    cells (dropping the remainder rows and columns), classify each cell in
    row-major order, and evaluate the resulting board. */
module BoardState {
  import opened Wrappers
  import opened Images
  import opened Game
  import opened Classifier

  /** `n // 3`: the side of a cell along an axis of length `n`; fewer than
      three samples are left over. */
  function CellSpan(n: nat): (c: nat)
    ensures 3 * c <= n < 3 * c + 3
  {
    n / 3
  }

  /** Sample `(y, x)` of an `h` x `w` image lies in cell `(i, j)`, i.e. in
      rows `[i*ch, (i+1)*ch)` and columns `[j*cw, (j+1)*cw)`; a sample of
      one of the nine cells is a sample of the image. */
  predicate InCell(h: nat, w: nat, i: nat, j: nat, y: nat, x: nat): (inside: bool)
    ensures i < 3 && j < 3 && inside ==> y < h && x < w
  {
    i * CellSpan(h) <= y < (i + 1) * CellSpan(h) &&
    j * CellSpan(w) <= x < (j + 1) * CellSpan(w)
  }

  lemma BandBounds(c: nat, i: nat)
    requires i < 3
    ensures i == 0 ==> i * c == 0 && (i + 1) * c == c
    ensures i == 1 ==> i * c == c && (i + 1) * c == 2 * c
    ensures i == 2 ==> i * c == 2 * c && (i + 1) * c == 3 * c
    ensures (i + 1) * c == i * c + c
  {
  }

  /** Every cell lies inside the image. */
  lemma CellWithinImage(h: nat, w: nat, i: nat, j: nat)
    requires i < 3 && j < 3
    ensures (i + 1) * CellSpan(h) <= h && (j + 1) * CellSpan(w) <= w
  {
  }

  /** The nine cells are pairwise disjoint. */
  lemma CellsDisjoint(h: nat, w: nat, i: nat, j: nat, k: nat, l: nat, y: nat, x: nat)
    requires i < 3 && j < 3 && k < 3 && l < 3
    requires InCell(h, w, i, j, y, x) && InCell(h, w, k, l, y, x)
    ensures i == k && j == l
  {
  }

  /** A sample belongs to some cell exactly when it is not in the dropped
      remainder: its row is below `3*ch` and its column below `3*cw`. */
  lemma CellsCoverAllButRemainder(h: nat, w: nat, y: nat, x: nat)
    ensures (exists i: nat, j: nat :: i < 3 && j < 3 && InCell(h, w, i, j, y, x)) <==>
              y < 3 * CellSpan(h) && x < 3 * CellSpan(w)
  {
    var ch, cw := CellSpan(h), CellSpan(w);
    if i: nat, j: nat :| i < 3 && j < 3 && InCell(h, w, i, j, y, x) {
      BandBounds(ch, i);
      BandBounds(cw, j);
    }
    if y < 3 * ch && x < 3 * cw {
      var i: nat := if y < ch then 0 else if y < 2 * ch then 1 else 2;
      var j: nat := if x < cw then 0 else if x < 2 * cw then 1 else 2;
      BandBounds(ch, i);
      BandBounds(cw, j);
      assert InCell(h, w, i, j, y, x);
    }
  }

  /** The slice `gray[i*ch:(i+1)*ch, j*cw:(j+1)*cw]`. */
  function CellRegion(img: Image, i: nat, j: nat): (cell: Image)
    requires img.Valid() && i < 3 && j < 3
    ensures cell.Valid()
    ensures cell.height == CellSpan(img.height) && cell.width == CellSpan(img.width)
    ensures forall y, x :: 0 <= y < cell.height && 0 <= x < cell.width ==>
              cell.pixels[y][x] == img.pixels[i * cell.height + y][j * cell.width + x]
  {
    var ch, cw := CellSpan(img.height), CellSpan(img.width);
    CellWithinImage(img.height, img.width, i, j);
    Slice(img, i * ch, (i + 1) * ch, j * cw, (j + 1) * cw)
  }

  /** The symbol of cell `(i, j)`; cells are non-empty once both sides of
      the image have at least three samples. */
  function CellSymbol(img: Image, tk: Toolkit, i: nat, j: nat): Symbol
    requires img.Valid() && img.height >= 3 && img.width >= 3 && i < 3 && j < 3
  {
    ClassifyCell(CellRegion(img, i, j), tk).value
  }

  /** The board `check_state` assembles: row `i`, column `j` is cell `(i, j)`. */
  function ClassifiedBoard(img: Image, tk: Toolkit): (b: Board)
    requires img.Valid() && img.height >= 3 && img.width >= 3
    ensures IsBoard(b)
    ensures forall i, j :: 0 <= i < 3 && 0 <= j < 3 ==> b[i][j] == CellSymbol(img, tk, i, j)
  {
    seq(3, i requires 0 <= i < 3 => seq(3, j requires 0 <= j < 3 => CellSymbol(img, tk, i, j)))
  }

  /** `check_state` after the image is loaded and converted to grayscale:
      nine classifications in row-major order, then `_check_winner`. An image
      with fewer than three rows or columns has zero-size cells, whose
      classification fails. */
  method CheckState(img: Image, tk: Toolkit) returns (outcome: Result<string, CellError>)
    requires img.Valid()
    ensures outcome.Failure? <==> img.height < 3 || img.width < 3
    ensures outcome.Success? ==>
              img.height >= 3 && img.width >= 3 &&
              outcome.value == Render(CheckWinner(ClassifiedBoard(img, tk)))
  {
    var board: Board := [];
    for i := 0 to 3
      invariant |board| == i
      invariant i > 0 ==> img.height >= 3 && img.width >= 3
      invariant forall k :: 0 <= k < i ==> |board[k]| == 3
      invariant forall k, l :: 0 <= k < i && 0 <= l < 3 ==> board[k][l] == CellSymbol(img, tk, k, l)
    {
      var row: seq<Symbol> := [];
      for j := 0 to 3
        invariant |row| == j
        invariant i > 0 || j > 0 ==> img.height >= 3 && img.width >= 3
        invariant forall l :: 0 <= l < j ==> row[l] == CellSymbol(img, tk, i, l)
      {
        var symbol := ClassifyCell(CellRegion(img, i, j), tk);
        if symbol.Failure? {
          return Failure(symbol.error);
        }
        row := row + [symbol.value];
      }
      board := board + [row];
    }
    var expected := ClassifiedBoard(img, tk);
    forall k | 0 <= k < 3 ensures board[k] == expected[k] {
      assert forall l :: 0 <= l < 3 ==> board[k][l] == expected[k][l];
    }
    assert board == expected;
    outcome := Success(Render(CheckWinner(board)));
  }
}
