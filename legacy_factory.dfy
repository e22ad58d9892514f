/**
 * The start-position builder of the older revision
 * (src/services/ChessboardFactory.ts): the same clear board and the same
 * fills as the current builder, applied White first, then Black.
 */
module LegacyBoardFactory {
  import opened ChessModel
  import opened MovesManager
  import BoardFactory

  /** The board the older `getNewBoard` returns: the clear board, filled with White, then with Black. */
  function LegacyNewBoardCells(): (g: Grid)
    ensures WellFormed(g)
  {
    BoardFactory.Filled(BoardFactory.Filled(BoardFactory.ClearGrid(), White, 6, 7), Black, 1, 0)
  }

  /** The older `getClearBoard`: the loops of the current one, then the board object. */
  method GetClearBoard() returns (board: Chessboard)
    ensures fresh(board) && board.cells == BoardFactory.ClearGrid()
  {
    var cells := BoardFactory.ClearCells();
    board := new Chessboard(cells);
  }

  /** The older `fillWithWhiteFigures`: pawns on row 6, the back rank on row 7. */
  method FillWithWhiteFigures(board: Chessboard)
    requires WellFormed(board.cells)
    modifies board
    ensures board.cells == BoardFactory.Filled(old(board.cells), White, 6, 7)
  {
    BoardFactory.FillWithFigures(board, White, 6, 7);
  }

  /** The older `fillWithBlackFigures`: pawns on row 1, the back rank on row 0. */
  method FillWithBlackFigures(board: Chessboard)
    requires WellFormed(board.cells)
    modifies board
    ensures board.cells == BoardFactory.Filled(old(board.cells), Black, 1, 0)
  {
    BoardFactory.FillWithFigures(board, Black, 1, 0);
  }

  /** The older `getNewBoard`; the final `setDefaultActions` is not part of this model. */
  method GetNewBoard() returns (board: Chessboard)
    ensures fresh(board) && board.cells == LegacyNewBoardCells()
  {
    board := GetClearBoard();
    FillWithWhiteFigures(board);
    FillWithBlackFigures(board);
  }

  /**
   * The two fills write disjoint rows, so their order does not matter: the older
   * builder produces the current start position, square for square.
   */
  lemma LegacyNewBoardIsNewBoard()
    ensures LegacyNewBoardCells() == BoardFactory.NewBoardCells()
  {
    var clear := BoardFactory.ClearGrid();
    var legacy := LegacyNewBoardCells();
    var current := BoardFactory.NewBoardCells();
    var white := BoardFactory.Filled(clear, White, 6, 7);
    var black := BoardFactory.Filled(clear, Black, 1, 0);
    forall q | InBounds(q)
      ensures At(legacy, q) == At(current, q)
    {
      assert At(white, q) == At(clear, q).(figure := BoardFactory.SideFigure(q, White, 6, 7, At(clear, q).figure));
      assert At(black, q) == At(clear, q).(figure := BoardFactory.SideFigure(q, Black, 1, 0, At(clear, q).figure));
    }
    GridExtensionality(legacy, current);
  }

  /** The older start position has each colour's figures on its two home rows, and one King per colour, in column 3. */
  lemma LegacyNewBoardOneKing(c: Color, q: Pos)
    requires InBounds(q)
    ensures HoldsColor(LegacyNewBoardCells(), q, c) <==> BoardFactory.HomeRow(q.row, c)
    ensures IsKingOf(LegacyNewBoardCells(), q, c) <==> q == Pos(BoardFactory.KingRow(c), 3)
  {
    LegacyNewBoardIsNewBoard();
    BoardFactory.NewBoardColors(c);
    BoardFactory.NewBoardOneKing(c, q);
  }
}
