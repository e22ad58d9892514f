/**
 * The start-position builder of the current revision
 * (src/services/chessboard/ChessboardFactory.ts): an empty 8 x 8 board with
 * alternating tints, then the Black figures, then the White figures.
 */
module BoardFactory {
  import opened ChessModel
  import opened MovesManager

  /** The tint of a square: White exactly when its row and column add up to an even number. */
  function Tint(p: Pos): Color {
    if (p.row + p.col) % 2 == 0 then White else Black
  }

  /** A cell as `new Cell(color, i, j)` creates it: no figure, status Default, no action. */
  function NewCell(color: Color, i: int, j: int): Cell {
    Cell(color, i, j, None, CellStatus.Default, NoAction)
  }

  /** The matrix `getClearBoard` builds. */
  function ClearGrid(): (g: Grid)
    ensures WellFormed(g)
    ensures forall q | InBounds(q) :: At(g, q) == NewCell(Tint(q), q.row, q.col)
  {
    seq(Size, i => seq(Size, j => NewCell(Tint(Pos(i, j)), i, j)))
  }

  /** The back rank, from column 0 to column 7: the King stands in column 3, the Queen in column 4. */
  const BackRank: seq<FigureName> := [Rook, Knight, Bishop, King, Queen, Bishop, Knight, Rook]

  /**
   * The figure a fill of `color` leaves on `q`: the back-rank figure of its column
   * on `heavyRow`, a pawn on `pawnRow`, and what was there before elsewhere.
   */
  function SideFigure(q: Pos, color: Color, pawnRow: int, heavyRow: int, before: Option<Figure>): Option<Figure>
    requires 0 <= q.col < Size
  {
    if q.row == heavyRow then Some(NewFigure(BackRank[q.col], color))
    else if q.row == pawnRow then Some(NewFigure(Pawn, color))
    else before
  }

  /** The board after one side's fill: figures change on the two rows of `color`, nothing else does. */
  function Filled(g: Grid, color: Color, pawnRow: int, heavyRow: int): (r: Grid)
    requires WellFormed(g)
    ensures WellFormed(r)
    ensures forall q | InBounds(q) :: At(r, q) == At(g, q).(figure := SideFigure(q, color, pawnRow, heavyRow, At(g, q).figure))
  {
    seq(Size, i requires 0 <= i < Size =>
      seq(Size, j requires 0 <= j < Size =>
        g[i][j].(figure := SideFigure(Pos(i, j), color, pawnRow, heavyRow, g[i][j].figure))))
  }

  /** The board `getNewBoard` returns: the clear board, filled with Black, then with White. */
  function NewBoardCells(): (g: Grid)
    ensures WellFormed(g)
  {
    Filled(Filled(ClearGrid(), Black, 1, 0), White, 6, 7)
  }

  /** `getClearBoard`'s loops: cells pushed row by row, tinted by a counter that gains one per cell and one per row. */
  method ClearCells() returns (cells: Grid)
    ensures cells == ClearGrid()
  {
    ghost var clear := ClearGrid();
    cells := [];
    var colorCounter := 0;
    for i := 0 to Size
      invariant |cells| == i
      invariant forall r :: 0 <= r < i ==> cells[r] == clear[r]
      invariant colorCounter >= 0 && colorCounter % 2 == i % 2
    {
      cells := cells + [[]];
      for j := 0 to Size
        invariant |cells| == i + 1
        invariant forall r :: 0 <= r < i ==> cells[r] == clear[r]
        invariant cells[i] == clear[i][..j]
        invariant colorCounter >= 0 && colorCounter % 2 == (i + j) % 2
      {
        var color := White;
        if colorCounter % 2 == 1 {
          color := Black;
        }
        assert color == Tint(Pos(i, j));
        cells := cells[i := cells[i] + [NewCell(color, i, j)]];
        assert clear[i][..j + 1] == clear[i][..j] + [clear[i][j]];
        colorCounter := colorCounter + 1;
      }
      assert clear[i][..Size] == clear[i];
      colorCounter := colorCounter + 1;
    }
  }

  /** `getClearBoard`. */
  method GetClearBoard() returns (board: Chessboard)
    ensures fresh(board) && board.cells == ClearGrid()
  {
    var cells := ClearCells();
    board := new Chessboard(cells);
  }

  /**
   * The body shared by the two fill methods: a pawn loop over the cells of
   * `pawnRow`, then the eight back-rank figures on `heavyRow`. A row here is the
   * program's alias `row` of one matrix row; it is written back once filled.
   */
  method FillWithFigures(board: Chessboard, color: Color, pawnRow: int, heavyRow: int)
    requires WellFormed(board.cells) && 0 <= pawnRow < Size && 0 <= heavyRow < Size && pawnRow != heavyRow
    modifies board
    ensures board.cells == Filled(old(board.cells), color, pawnRow, heavyRow)
  {
    ghost var g: Grid := board.cells;
    var row: seq<Cell> := board.cells[pawnRow];
    for i := 0 to Size
      invariant |row| == Size
      invariant forall k :: 0 <= k < Size ==> row[k] == if k < i then g[pawnRow][k].(figure := Some(NewFigure(Pawn, color))) else g[pawnRow][k]
    {
      row := row[i := row[i].(figure := Some(NewFigure(Pawn, color)))];
    }
    board.cells := board.cells[pawnRow := row];
    ghost var g1: Grid := board.cells;
    row := board.cells[heavyRow];
    row := row[0 := row[0].(figure := Some(NewFigure(Rook, color)))];
    row := row[1 := row[1].(figure := Some(NewFigure(Knight, color)))];
    row := row[2 := row[2].(figure := Some(NewFigure(Bishop, color)))];
    row := row[3 := row[3].(figure := Some(NewFigure(King, color)))];
    row := row[4 := row[4].(figure := Some(NewFigure(Queen, color)))];
    row := row[5 := row[5].(figure := Some(NewFigure(Bishop, color)))];
    row := row[6 := row[6].(figure := Some(NewFigure(Knight, color)))];
    row := row[7 := row[7].(figure := Some(NewFigure(Rook, color)))];
    assert forall k :: 0 <= k < Size ==> row[k] == g1[heavyRow][k].(figure := Some(NewFigure(BackRank[k], color)));
    board.cells := board.cells[heavyRow := row];
    GridExtensionality(board.cells, Filled(g, color, pawnRow, heavyRow));
  }

  /** `fillWithWhiteFigures`: pawns on row 6, the back rank on row 7. */
  method FillWithWhiteFigures(board: Chessboard)
    requires WellFormed(board.cells)
    modifies board
    ensures board.cells == Filled(old(board.cells), White, 6, 7)
  {
    FillWithFigures(board, White, 6, 7);
  }

  /** `fillWithBlackFigures`: pawns on row 1, the back rank on row 0. */
  method FillWithBlackFigures(board: Chessboard)
    requires WellFormed(board.cells)
    modifies board
    ensures board.cells == Filled(old(board.cells), Black, 1, 0)
  {
    FillWithFigures(board, Black, 1, 0);
  }

  /** `getNewBoard`. */
  method GetNewBoard() returns (board: Chessboard)
    ensures fresh(board) && board.cells == NewBoardCells()
  {
    board := GetClearBoard();
    FillWithBlackFigures(board);
    FillWithWhiteFigures(board);
  }

  // ---------------------------------------------------------------------------
  // The start position
  // ---------------------------------------------------------------------------

  /** The rows of a colour: 0 and 1 for Black, 6 and 7 for White. */
  predicate HomeRow(r: int, c: Color) {
    if c == Black then 0 <= r <= 1 else 6 <= r <= 7
  }

  /** The row of a colour's King in the start position. */
  function KingRow(c: Color): int {
    if c == Black then 0 else 7
  }

  /**
   * The start position square by square: each colour's back rank on its outer
   * row, its pawns (unmoved) on the row inside it, rows 2 to 5 empty, every cell
   * tinted by parity, with status Default and no action.
   */
  lemma NewBoardSquares(q: Pos)
    requires InBounds(q)
    ensures At(NewBoardCells(), q).row == q.row && At(NewBoardCells(), q).col == q.col
    ensures At(NewBoardCells(), q).color == Tint(q)
    ensures At(NewBoardCells(), q).status == CellStatus.Default && At(NewBoardCells(), q).action == NoAction
    ensures q.row == 0 ==> At(NewBoardCells(), q).figure == Some(NewFigure(BackRank[q.col], Black))
    ensures q.row == 1 ==> At(NewBoardCells(), q).figure == Some(NewFigure(Pawn, Black))
    ensures 2 <= q.row <= 5 ==> At(NewBoardCells(), q).figure == None
    ensures q.row == 6 ==> At(NewBoardCells(), q).figure == Some(NewFigure(Pawn, White))
    ensures q.row == 7 ==> At(NewBoardCells(), q).figure == Some(NewFigure(BackRank[q.col], White))
  {
    var half := Filled(ClearGrid(), Black, 1, 0);
    assert At(half, q) == At(ClearGrid(), q).(figure := SideFigure(q, Black, 1, 0, None));
  }

  /** Every square of the start position holds a figure of colour `c` exactly on that colour's two rows. */
  lemma NewBoardColors(c: Color)
    ensures forall q | InBounds(q) :: HoldsColor(NewBoardCells(), q, c) <==> HomeRow(q.row, c)
  {
    forall q | InBounds(q)
      ensures HoldsColor(NewBoardCells(), q, c) <==> HomeRow(q.row, c)
    {
      NewBoardSquares(q);
    }
  }

  /** The back rank holds its King in column 3 only. */
  lemma BackRankKing(k: int)
    requires 0 <= k < Size
    ensures BackRank[k] == King <==> k == 3
  {
    if k != 3 {
      assert k == 0 || k == 1 || k == 2 || k == 4 || k == 5 || k == 6 || k == 7;
    }
  }

  /** The start position has exactly one King per colour, in column 3 of its back rank. */
  lemma NewBoardOneKing(c: Color, q: Pos)
    requires InBounds(q)
    ensures IsKingOf(NewBoardCells(), q, c) <==> q == Pos(KingRow(c), 3)
  {
    NewBoardSquares(q);
    BackRankKing(q.col);
  }

  /** `findKingCell` on the start position finds each colour's King in column 3 of its back rank. */
  lemma NewBoardFindKing(c: Color)
    ensures FindKing(NewBoardCells(), c) == Some(Pos(KingRow(c), 3))
  {
    var k := Pos(KingRow(c), 3);
    NewBoardOneKing(c, k);
    var r := FindKing(NewBoardCells(), c);
    if r.Some? {
      NewBoardOneKing(c, r.value);
    }
  }
}
