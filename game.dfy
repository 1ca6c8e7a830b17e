/** The board evaluator `_check_winner`: a 3x3 grid of symbols is mapped to
    a win for one player, a draw, or a game still in progress. */
module Game {
  import opened Wrappers

  /** A classified cell: the source's strings '', 'X' and 'O'. */
  datatype Symbol = Empty | X | O

  /** The game state a board evaluates to. */
  datatype Verdict = Win(player: Symbol) | Draw | Ongoing

  type Board = seq<seq<Symbol>>

  /** Exactly three rows of three cells, indexed `b[row][column]`. */
  predicate IsBoard(b: Board) {
    |b| == 3 && forall i :: 0 <= i < 3 ==> |b[i]| == 3
  }

  predicate IsFull(b: Board)
    requires IsBoard(b)
  {
    forall i, j :: 0 <= i < 3 && 0 <= j < 3 ==> b[i][j] != Empty
  }

  // ---------------------------------------------------------------------------
  // Reference definition of a win, written independently of the scan order.

  predicate RowFilled(b: Board, i: nat, p: Symbol)
    requires IsBoard(b) && i < 3
  {
    b[i][0] == p && b[i][1] == p && b[i][2] == p
  }

  predicate ColumnFilled(b: Board, j: nat, p: Symbol)
    requires IsBoard(b) && j < 3
  {
    b[0][j] == p && b[1][j] == p && b[2][j] == p
  }

  /** `p` occupies some whole row, column or diagonal. */
  predicate HasThreeInARow(b: Board, p: Symbol)
    requires IsBoard(b)
  {
    p != Empty &&
    ((exists i: nat :: i < 3 && RowFilled(b, i, p)) ||
     (exists j: nat :: j < 3 && ColumnFilled(b, j, p)) ||
     (b[0][0] == p && b[1][1] == p && b[2][2] == p) ||
     (b[0][2] == p && b[1][1] == p && b[2][0] == p))
  }

  // ---------------------------------------------------------------------------
  // The evaluator, in the order the source checks.

  /** The eight lines in the order they are examined: rows 0..2, columns
      0..2, the main diagonal, the anti-diagonal. */
  function LineCells(k: nat): (cells: seq<(nat, nat)>)
    requires k < 8
    ensures |cells| == 3
    ensures forall n :: 0 <= n < 3 ==> cells[n].0 < 3 && cells[n].1 < 3
  {
    if k < 3 then [(k, 0), (k, 1), (k, 2)]
    else if k < 6 then [(0, k - 3), (1, k - 3), (2, k - 3)]
    else if k == 6 then [(0, 0), (1, 1), (2, 2)]
    else [(0, 2), (1, 1), (2, 0)]
  }

  function At(b: Board, c: (nat, nat)): Symbol
    requires IsBoard(b) && c.0 < 3 && c.1 < 3
  {
    b[c.0][c.1]
  }

  /** All three cells of line `k` hold `p`. */
  predicate FilledBy(b: Board, k: nat, p: Symbol)
    requires IsBoard(b) && k < 8
  {
    forall n :: 0 <= n < 3 ==> At(b, LineCells(k)[n]) == p
  }

  /** The chained test `a == b == c != ''` on line `k`: the symbol that
      fills it, if a non-empty one does. */
  function LineWinner(b: Board, k: nat): (w: Option<Symbol>)
    requires IsBoard(b) && k < 8
    ensures w.Some? ==> w.value != Empty && FilledBy(b, k, w.value)
    ensures w.None? ==> At(b, LineCells(k)[0]) == Empty || !FilledBy(b, k, At(b, LineCells(k)[0]))
  {
    var cs := LineCells(k);
    if At(b, cs[0]) == At(b, cs[1]) == At(b, cs[2]) && At(b, cs[2]) != Empty
    then Some(At(b, cs[0]))
    else None
  }

  /** The outcome of the chained test on each line, in scan order. */
  function LineWinners(b: Board): (ws: seq<Option<Symbol>>)
    requires IsBoard(b)
    ensures |ws| == 8 && forall l :: 0 <= l < 8 ==> ws[l] == LineWinner(b, l)
  {
    seq(8, l requires 0 <= l < 8 => LineWinner(b, l))
  }

  /** The first reported symbol of a scan, the early `return` of the loops;
      whatever it reports was reported by one of the lines. */
  function FirstWin(ws: seq<Option<Symbol>>): (r: Option<Symbol>)
    ensures r.Some? ==> r in ws
  {
    if ws == [] then None
    else if ws[0].Some? then ws[0]
    else FirstWin(ws[1..])
  }

  /** The row-major scan for an empty cell, from cell index `n` (row `n / 3`,
      column `n % 3`) onward. */
  function EmptyFrom(b: Board, n: nat): (found: bool)
    requires IsBoard(b) && n <= 9
    ensures found ==> exists m :: n <= m < 9 && b[m / 3][m % 3] == Empty
    decreases 9 - n
  {
    if n == 9 then false
    else if b[n / 3][n % 3] == Empty then true
    else EmptyFrom(b, n + 1)
  }

  /** `_check_winner`: wins are looked for before fullness. A reported
      winner holds a whole line; "Draw" only for a full board, "Ongoing"
      only for one with an empty cell. */
  function CheckWinner(b: Board): (v: Verdict)
    requires IsBoard(b)
    ensures v.Win? ==> v.player != Empty && HasThreeInARow(b, v.player)
    ensures v == Draw ==> IsFull(b)
    ensures v == Ongoing ==> !IsFull(b)
  {
    ReportedLineIsWon(b);
    EmptyFromZeroIsNotFull(b);
    match FirstWin(LineWinners(b))
    case Some(p) => Win(p)
    case None => if EmptyFrom(b, 0) then Ongoing else Draw
  }

  /** The label the source returns: `"<sym> Wins"`, `"Draw"` or `"Ongoing"`. */
  function SymbolText(s: Symbol): string {
    match s
    case Empty => ""
    case X => "X"
    case O => "O"
  }

  function Render(v: Verdict): (text: string)
    ensures v == Win(X) ==> text == "X Wins"
    ensures v == Win(O) ==> text == "O Wins"
    ensures v == Draw ==> text == "Draw"
    ensures v == Ongoing ==> text == "Ongoing"
  {
    match v
    case Win(p) =>
      var t := SymbolText(p) + " Wins";
      assert p == X ==> t == "X Wins";
      assert p == O ==> t == "O Wins";
      t
    case Draw => "Draw"
    case Ongoing => "Ongoing"
  }

  // ---------------------------------------------------------------------------
  // Properties.

  /** The scan reports `p` exactly when `p` is the first reported line. */
  lemma {:induction false} FirstWinIsFirst(ws: seq<Option<Symbol>>, p: Symbol)
    ensures FirstWin(ws) == Some(p) <==>
              exists l :: 0 <= l < |ws| && ws[l] == Some(p) &&
                forall l' :: 0 <= l' < l ==> ws[l'].None?
  {
    if ws != [] {
      FirstWinIsFirst(ws[1..], p);
      if ws[0].None? && FirstWin(ws) == Some(p) {
        var l :| 0 <= l < |ws[1..]| && ws[1..][l] == Some(p) &&
                 forall l' :: 0 <= l' < l ==> ws[1..][l'].None?;
        assert ws[l + 1] == Some(p);
        assert forall l' :: 0 <= l' < l + 1 ==> ws[l'].None? by {
          forall l' | 0 <= l' < l + 1 ensures ws[l'].None? {
            if l' > 0 {
              assert ws[l'] == ws[1..][l' - 1];
            }
          }
        }
      }
      if ws[0].None? && exists l :: 0 <= l < |ws| && ws[l] == Some(p) &&
                          forall l' :: 0 <= l' < l ==> ws[l'].None? {
        var l :| 0 <= l < |ws| && ws[l] == Some(p) && forall l' :: 0 <= l' < l ==> ws[l'].None?;
        assert ws[1..][l - 1] == Some(p);
        assert forall l' :: 0 <= l' < l - 1 ==> ws[1..][l'].None?;
      }
    }
  }

  /** The scan reports nothing exactly when no line is reported. */
  lemma {:induction false} FirstWinNone(ws: seq<Option<Symbol>>)
    ensures FirstWin(ws).None? <==> forall l :: 0 <= l < |ws| ==> ws[l].None?
  {
    if ws != [] {
      FirstWinNone(ws[1..]);
      assert forall l :: 1 <= l < |ws| ==> ws[l] == ws[1..][l - 1];
    }
  }

  /** The row-major empty-cell scan finds an empty cell exactly when one exists. */
  lemma EmptyFromExists(b: Board, n: nat)
    requires IsBoard(b) && n <= 9
    ensures EmptyFrom(b, n) <==> exists m :: n <= m < 9 && b[m / 3][m % 3] == Empty
  {
  }

  lemma EmptyFromZeroIsNotFull(b: Board)
    requires IsBoard(b)
    ensures EmptyFrom(b, 0) <==> !IsFull(b)
  {
  }

  /** The line table and the reference definition agree: some line of the
      table is won by `p` exactly when `p` has three in a row. */
  lemma LineTableMatchesReference(b: Board, p: Symbol)
    requires IsBoard(b)
    ensures HasThreeInARow(b, p) <==> exists l :: 0 <= l < 8 && LineWinner(b, l) == Some(p)
  {
    if HasThreeInARow(b, p) {
      ReferenceToTable(b, p);
    }
    if l :| 0 <= l < 8 && LineWinner(b, l) == Some(p) {
      TableToReference(b, p, l);
    }
  }

  lemma ReferenceToTable(b: Board, p: Symbol)
    requires IsBoard(b) && HasThreeInARow(b, p)
    ensures exists l :: 0 <= l < 8 && LineWinner(b, l) == Some(p)
  {
    if exists i: nat :: i < 3 && RowFilled(b, i, p) {
      var i: nat :| i < 3 && RowFilled(b, i, p);
      RowWins(b, i, p);
    } else if exists j: nat :: j < 3 && ColumnFilled(b, j, p) {
      var j: nat :| j < 3 && ColumnFilled(b, j, p);
      ColumnWins(b, j, p);
    } else if b[0][0] == p && b[1][1] == p && b[2][2] == p {
      assert LineWinner(b, 6) == Some(p);
    } else {
      assert LineWinner(b, 7) == Some(p);
    }
  }

  lemma RowWins(b: Board, i: nat, p: Symbol)
    requires IsBoard(b) && i < 3 && p != Empty && RowFilled(b, i, p)
    ensures LineWinner(b, i) == Some(p)
  {
  }

  lemma ColumnWins(b: Board, j: nat, p: Symbol)
    requires IsBoard(b) && j < 3 && p != Empty && ColumnFilled(b, j, p)
    ensures LineWinner(b, j + 3) == Some(p)
  {
  }

  lemma TableToReference(b: Board, p: Symbol, l: nat)
    requires IsBoard(b) && l < 8 && LineWinner(b, l) == Some(p)
    ensures HasThreeInARow(b, p)
  {
    var cs := LineCells(l);
    assert At(b, cs[0]) == p && At(b, cs[1]) == p && At(b, cs[2]) == p;
    if l < 3 {
      assert RowFilled(b, l, p);
    } else if l < 6 {
      assert ColumnFilled(b, l - 3, p);
    }
  }

  /** The symbol the line scan reports fills one of the lines. */
  lemma ReportedLineIsWon(b: Board)
    requires IsBoard(b)
    ensures FirstWin(LineWinners(b)).Some? ==>
              HasThreeInARow(b, FirstWin(LineWinners(b)).value)
  {
    var ws := LineWinners(b);
    if FirstWin(ws).Some? {
      var l :| 0 <= l < |ws| && ws[l] == FirstWin(ws);
      TableToReference(b, FirstWin(ws).value, l);
    }
  }

  /** `CheckWinner` reports a win exactly when the line scan reports one. */
  lemma WinIsFirstWin(b: Board, p: Symbol)
    requires IsBoard(b)
    ensures CheckWinner(b) == Win(p) <==> FirstWin(LineWinners(b)) == Some(p)
  {
  }

  /** The scan of the line table stops at the first winning line. */
  lemma FirstWinningLine(b: Board, p: Symbol)
    requires IsBoard(b)
    ensures FirstWin(LineWinners(b)) == Some(p) <==>
              exists l :: 0 <= l < 8 && LineWinner(b, l) == Some(p) &&
                forall l' :: 0 <= l' < l ==> LineWinner(b, l').None?
  {
    if FirstWin(LineWinners(b)) == Some(p) {
      FirstWinningLineFound(b, p);
    }
    if l :| 0 <= l < 8 && LineWinner(b, l) == Some(p) &&
            forall l' :: 0 <= l' < l ==> LineWinner(b, l').None? {
      FirstWinningLineReported(b, p, l);
    }
  }

  lemma FirstWinningLineFound(b: Board, p: Symbol)
    requires IsBoard(b) && FirstWin(LineWinners(b)) == Some(p)
    ensures exists l :: 0 <= l < 8 && LineWinner(b, l) == Some(p) &&
              forall l' :: 0 <= l' < l ==> LineWinner(b, l').None?
  {
    var ws := LineWinners(b);
    FirstWinIsFirst(ws, p);
    var l :| 0 <= l < |ws| && ws[l] == Some(p) && forall l' :: 0 <= l' < l ==> ws[l'].None?;
    assert LineWinner(b, l) == Some(p);
  }

  lemma FirstWinningLineReported(b: Board, p: Symbol, l: nat)
    requires IsBoard(b) && l < 8 && LineWinner(b, l) == Some(p)
    requires forall l' :: 0 <= l' < l ==> LineWinner(b, l').None?
    ensures FirstWin(LineWinners(b)) == Some(p)
  {
    var ws := LineWinners(b);
    FirstWinIsFirst(ws, p);
    assert ws[l] == Some(p);
    assert forall l' :: 0 <= l' < l ==> ws[l'].None?;
  }

  /** Win detection with the source's tie-break: the result is a win for `p`
      exactly when some line won by `p` comes first in the order rows,
      columns, main diagonal, anti-diagonal. */
  lemma WinIsFirstWinningLine(b: Board, p: Symbol)
    requires IsBoard(b)
    ensures CheckWinner(b) == Win(p) <==>
              exists l :: 0 <= l < 8 && LineWinner(b, l) == Some(p) &&
                forall l' :: 0 <= l' < l ==> LineWinner(b, l').None?
  {
    WinIsFirstWin(b, p);
    FirstWinningLine(b, p);
  }

  /** A reported winner really has three in a row, and a win is reported
      whenever anybody has three in a row; the empty symbol never wins. */
  lemma WinMeansThreeInARow(b: Board)
    requires IsBoard(b)
    ensures CheckWinner(b).Win? ==>
              CheckWinner(b).player != Empty && HasThreeInARow(b, CheckWinner(b).player)
    ensures (exists p :: HasThreeInARow(b, p)) ==> CheckWinner(b).Win?
  {
    FirstWinNone(LineWinners(b));
    if CheckWinner(b).Win? {
      var p := CheckWinner(b).player;
      FirstWinIsFirst(LineWinners(b), p);
      LineTableMatchesReference(b, p);
    }
    if p :| HasThreeInARow(b, p) {
      LineTableMatchesReference(b, p);
    }
  }

  /** When only one player has three in a row, that player wins. */
  lemma SoleWinnerWins(b: Board, p: Symbol)
    requires IsBoard(b)
    requires HasThreeInARow(b, p)
    requires forall q :: q != p ==> !HasThreeInARow(b, q)
    ensures CheckWinner(b) == Win(p)
  {
    WinMeansThreeInARow(b);
  }

  /** A line of three empty cells is never a winning line. */
  lemma EmptyLineNeverWins(b: Board, k: nat)
    requires IsBoard(b) && k < 8
    requires FilledBy(b, k, Empty)
    ensures LineWinner(b, k).None?
  {
  }

  /** A full board that holds a winning line reports the win, never a draw. */
  lemma WinBeforeFull(b: Board, p: Symbol)
    requires IsBoard(b) && IsFull(b) && HasThreeInARow(b, p)
    ensures CheckWinner(b).Win? && CheckWinner(b) != Draw
  {
    WinMeansThreeInARow(b);
  }

  /** Without a winning line the result is Ongoing exactly when some cell
      is empty and Draw exactly when the board is full. */
  lemma OngoingOrDraw(b: Board)
    requires IsBoard(b)
    requires forall p :: !HasThreeInARow(b, p)
    ensures CheckWinner(b) == Ongoing <==> !IsFull(b)
    ensures CheckWinner(b) == Draw <==> IsFull(b)
  {
    WinMeansThreeInARow(b);
    EmptyFromZeroIsNotFull(b);
  }

  /** The returned label is always one of the four strings, and different
      verdicts render differently. */
  lemma RenderedLabel(b: Board)
    requires IsBoard(b)
    ensures Render(CheckWinner(b)) in {"X Wins", "O Wins", "Draw", "Ongoing"}
  {
    WinMeansThreeInARow(b);
  }

  lemma RenderInjective(v: Verdict, w: Verdict)
    requires v.Win? ==> v.player != Empty
    requires w.Win? ==> w.player != Empty
    requires Render(v) == Render(w)
    ensures v == w
  {
    if v.Win? && w.Win? {
      assert Render(v)[0] == Render(w)[0];
    }
  }

  // ---------------------------------------------------------------------------
  // Concrete boards.

  /** A top row of O with every other cell empty is a win for O. */
  lemma TopRowOWins()
    ensures Render(CheckWinner([[O, O, O], [Empty, Empty, Empty], [Empty, Empty, Empty]])) == "O Wins"
  {
  }

  /** A single X in the centre leaves the game in progress. */
  lemma CentreXOngoing()
    ensures Render(CheckWinner([[Empty, Empty, Empty], [Empty, X, Empty], [Empty, Empty, Empty]])) == "Ongoing"
  {
    var b := [[Empty, Empty, Empty], [Empty, X, Empty], [Empty, Empty, Empty]];
    OngoingOrDraw(b);
  }

  /** A full board without three in a row is a draw. */
  lemma FullBoardWithoutLineIsDraw()
    ensures Render(CheckWinner([[X, O, X], [X, O, O], [O, X, X]])) == "Draw"
  {
    var b := [[X, O, X], [X, O, O], [O, X, X]];
    assert forall p :: !HasThreeInARow(b, p) by {
      forall p ensures !HasThreeInARow(b, p) {
        assert !RowFilled(b, 0, p) && !RowFilled(b, 1, p) && !RowFilled(b, 2, p);
        assert !ColumnFilled(b, 0, p) && !ColumnFilled(b, 1, p) && !ColumnFilled(b, 2, p);
      }
    }
    OngoingOrDraw(b);
  }
}
