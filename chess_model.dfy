/**
 * The data model shared by both revisions of the rules engine: colours, pieces,
 * cells, the 8x8 board, the game states and the engine's run-time errors.
 *
 * A cell of the board is an object in the original program; here it is a `Cell`
 * value stored in the `Chessboard` matrix, and the move managers reassign the
 * matrix where the program writes a cell's fields. Every coordinate holds exactly
 * one cell, so comparing cells by identity is comparing their coordinates.
 */
module ChessModel {

  datatype Option<T> = None | Some(value: T)

  datatype Result<T> = Ok(value: T) | Err(fault: Fault)

  /** The errors the engine throws; each names the condition that raised it. */
  datatype Fault =
    | TeammateDestination    // a move onto a cell of the mover's own team
    | KingDestination        // a move installed onto a cell holding a King
    | OffBoardRead           // the pawn's unchecked two-square read left the matrix
    | MissingFigure          // a cell that must hold a figure is empty
    | NotDefaultStatus       // selecting a cell whose status is not Default
    | MissingKing            // no King of the requested colour on the board
    | NonKingLastFigures     // one figure per team, but not both of them Kings
    | NoPriorityTarget       // the priority target is needed but unset
    | EmptyPriorityTarget    // the priority target cell holds no figure
    | SameTeamTarget         // the priority target is of the cell's own colour

  datatype Color = White | Black

  function Opponent(c: Color): (r: Color)
    ensures r != c
  {
    if c == White then Black else White
  }

  datatype FigureName = Pawn | Rook | Knight | Bishop | Queen | King

  /** A piece. `moved` exists on pawns only in the program; it is false at creation. */
  datatype Figure = Figure(figureName: FigureName, color: Color, moved: bool)

  function NewFigure(name: FigureName, color: Color): (f: Figure)
    ensures f.figureName == name && f.color == color && !f.moved
  {
    Figure(name, color, false)
  }

  datatype CellStatus = Default | Active | OnWay | Target

  datatype Pos = Pos(row: int, col: int)

  /** The closure a cell runs when clicked: nothing, or the move `from` -> `to`. */
  datatype CellAction = NoAction | MoveAction(from: Pos, to: Pos)

  /** A cell: its tint `color`, its coordinates, its occupant, its status and its action. */
  datatype Cell = Cell(color: Color, row: int, col: int, figure: Option<Figure>,
                       status: CellStatus, action: CellAction)

  /** The game states of the engine's state machine. */
  datatype ChessGameStates = Default | Check | Mate | Checkmate | InProcess | Draw

  predicate IsTerminal(s: ChessGameStates) {
    s == ChessGameStates.Mate || s == ChessGameStates.Checkmate || s == ChessGameStates.Draw
  }

  /** The side of the board; the factory always builds 8 x 8 matrices. */
  const Size: int := 8

  type Grid = seq<seq<Cell>>

  predicate InBounds(p: Pos) {
    0 <= p.row < Size && 0 <= p.col < Size
  }

  /** An 8 x 8 matrix whose cell at [i][j] knows it is at row i, column j. */
  predicate WellFormed(g: Grid) {
    && |g| == Size
    && (forall r :: 0 <= r < Size ==> |g[r]| == Size)
    && (forall r, c :: 0 <= r < Size && 0 <= c < Size ==> g[r][c].row == r && g[r][c].col == c)
  }

  function At(g: Grid, p: Pos): Cell
    requires WellFormed(g) && InBounds(p)
  {
    g[p.row][p.col]
  }

  predicate IsEmpty(g: Grid, p: Pos)
    requires WellFormed(g) && InBounds(p)
  {
    At(g, p).figure.None?
  }

  /** The cell at `p` holds a figure of colour `c`. */
  predicate HoldsColor(g: Grid, p: Pos, c: Color)
    requires WellFormed(g) && InBounds(p)
  {
    At(g, p).figure.Some? && At(g, p).figure.value.color == c
  }

  /** The cell at `p` holds a figure of colour `c` whose kind is one of `kinds`. */
  predicate HoldsKind(g: Grid, p: Pos, c: Color, kinds: set<FigureName>)
    requires WellFormed(g) && InBounds(p)
  {
    HoldsColor(g, p, c) && At(g, p).figure.value.figureName in kinds
  }

  /** Replaces the cell at `p`, keeping its coordinates; every other cell is untouched. */
  function Replace(g: Grid, p: Pos, cell: Cell): (r: Grid)
    requires WellFormed(g) && InBounds(p)
    requires cell.row == p.row && cell.col == p.col
    ensures WellFormed(r)
    ensures At(r, p) == cell
    ensures forall q :: InBounds(q) && q != p ==> At(r, q) == At(g, q)
  {
    g[p.row := g[p.row][p.col := cell]]
  }

  function SetFigure(g: Grid, p: Pos, f: Option<Figure>): (r: Grid)
    requires WellFormed(g) && InBounds(p)
    ensures WellFormed(r)
    ensures At(r, p) == At(g, p).(figure := f)
    ensures forall q :: InBounds(q) && q != p ==> At(r, q) == At(g, q)
  {
    Replace(g, p, At(g, p).(figure := f))
  }

  function SetStatus(g: Grid, p: Pos, s: CellStatus, a: CellAction): (r: Grid)
    requires WellFormed(g) && InBounds(p)
    ensures WellFormed(r)
    ensures At(r, p) == At(g, p).(status := s, action := a)
    ensures forall q :: InBounds(q) && q != p ==> At(r, q) == At(g, q)
  {
    Replace(g, p, At(g, p).(status := s, action := a))
  }

  /** Two boards carry the same figures on every cell (statuses and actions may differ). */
  ghost predicate SameFigures(g: Grid, h: Grid)
    requires WellFormed(g) && WellFormed(h)
  {
    forall q :: InBounds(q) ==> At(g, q).figure == At(h, q).figure
  }

  /** The `k`-th cell of a row-major scan of the board. */
  function ScanPos(k: nat): Pos {
    Pos(k / Size, k % Size)
  }

  /** The place of `p` in a row-major scan of the board. */
  function ScanIndex(p: Pos): int {
    p.row * Size + p.col
  }

  /** The first `Size * Size` places of the scan are the cells of the board, each at its own place. */
  lemma ScanPosIndex(k: nat)
    requires k < Size * Size
    ensures InBounds(ScanPos(k)) && ScanIndex(ScanPos(k)) == k
  {
  }

  /** Every cell of the board is scanned at its own place. */
  lemma ScanIndexPos(p: Pos)
    requires InBounds(p)
    ensures 0 <= ScanIndex(p) < Size * Size && ScanPos(ScanIndex(p)) == p
  {
    var k := ScanIndex(p);
    assert k / Size == p.row && k % Size == p.col;
  }

  /**
   * The positions of `ps`, in order, whose cells hold a figure of colour `c`
   * and of a kind in `kinds`.
   */
  function Holding(g: Grid, ps: seq<Pos>, c: Color, kinds: set<FigureName>): (r: seq<Pos>)
    requires WellFormed(g) && forall q | q in ps :: InBounds(q)
    ensures forall q | q in r :: q in ps && HoldsKind(g, q, c, kinds)
    ensures forall q | q in ps && HoldsKind(g, q, c, kinds) :: q in r
    ensures |r| <= |ps|
  {
    if ps == [] then []
    else
      var q := ps[|ps| - 1];
      Holding(g, ps[..|ps| - 1], c, kinds) + (if HoldsKind(g, q, c, kinds) then [q] else [])
  }

  /** Every kind of figure. */
  const AllKinds: set<FigureName> := {Pawn, Rook, Knight, Bishop, Queen, King}

  /** Two well-formed boards that agree on every square are the same board. */
  lemma GridExtensionality(g: Grid, h: Grid)
    requires WellFormed(g) && WellFormed(h)
    requires forall q | InBounds(q) :: At(g, q) == At(h, q)
    ensures g == h
  {
    forall r | 0 <= r < Size
      ensures g[r] == h[r]
    {
      forall c | 0 <= c < Size
        ensures g[r][c] == h[r][c]
      {
        assert At(g, Pos(r, c)) == At(h, Pos(r, c));
      }
    }
  }

  /** The board object; `size` is the length of its matrix. */
  class Chessboard {
    var cells: Grid

    constructor (cells: Grid)
      ensures this.cells == cells
    {
      this.cells := cells;
    }
  }
}
