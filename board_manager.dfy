/**
 * The click-driven state machine of the current revision
 * (src/services/chessboard/ChessboardManager.ts).
 *
 * The manager owns the board, a move generator on it, the selection
 * (`selected`, `lastSelectedCell`) and the game information (the side to
 * move, the game state and the priority target: the first figure giving
 * check). Every method is proved against a function on a snapshot of that
 * state; a method that throws in the program returns the fault here and
 * leaves the state as the program leaves it at the throw.
 */
module BoardManager {
  import opened ChessModel
  import opened MovesManager
  import opened BoardFactory

  /** `IChessGameInfo`. */
  datatype GameInfo = GameInfo(currentTeamColor: Color, gameState: ChessGameStates, priorityTargetCell: Option<Pos>)

  /** Everything the manager's methods read and write. */
  datatype ManagerState = ManagerState(cells: Grid, selected: bool, lastSelectedCell: Option<Pos>, gameInfo: GameInfo)

  /** The state a method leaves, and the error it throws, if any. */
  datatype Outcome = Outcome(state: ManagerState, fault: Option<Fault>)

  /** White to move, state Default, no priority target. */
  const StartInfo: GameInfo := GameInfo(White, ChessGameStates.Default, None)

  predicate OnBoard(p: Option<Pos>) {
    p.Some? ==> InBounds(p.value)
  }

  /** Every installed move joins two cells of the board. */
  ghost predicate ActionsOnBoard(g: Grid)
    requires WellFormed(g)
  {
    forall q | InBounds(q) :: At(g, q).action.MoveAction? ==> InBounds(At(g, q).action.from) && InBounds(At(g, q).action.to)
  }

  /** The representation invariant: an 8 x 8 board, and every remembered cell is on it. */
  ghost predicate Sane(s: ManagerState) {
    && WellFormed(s.cells)
    && ActionsOnBoard(s.cells)
    && OnBoard(s.lastSelectedCell)
    && OnBoard(s.gameInfo.priorityTargetCell)
  }

  predicate KingAt(g: Grid, p: Pos)
    requires WellFormed(g) && InBounds(p)
  {
    At(g, p).figure.Some? && At(g, p).figure.value.figureName == King
  }

  // ---------------------------------------------------------------------------
  // Resetting and cancelling
  // ---------------------------------------------------------------------------

  function ResetCell(c: Cell): Cell {
    c.(status := CellStatus.Default, action := NoAction)
  }

  /** The board `setDefaultCellsState` leaves: every cell Default with no action. */
  function ResetCells(g: Grid): (r: Grid)
    requires WellFormed(g)
    ensures WellFormed(r) && ActionsOnBoard(r)
    ensures forall q | InBounds(q) :: At(r, q) == ResetCell(At(g, q))
  {
    seq(Size, i requires 0 <= i < Size => seq(Size, j requires 0 <= j < Size => ResetCell(g[i][j])))
  }

  /** `cancelSelect`: no selection, every cell Default with no action. */
  function Cancel(s: ManagerState): (r: ManagerState)
    requires Sane(s)
    ensures Sane(r)
  {
    s.(selected := false, cells := ResetCells(s.cells))
  }

  // ---------------------------------------------------------------------------
  // Selecting a cell
  // ---------------------------------------------------------------------------

  /**
   * The test of `selectCell`'s callback for the square `next`: a King gets no move
   * onto a square an enemy reaches once the King's own square is ignored; while
   * there is a priority target, other figures get a move onto the target only.
   */
  function MayInstall(g: Grid, from: Pos, next: Pos, enemy: Color, target: Option<Pos>): bool
    requires WellFormed(g) && InBounds(from) && InBounds(next)
  {
    && !(KingAt(g, from) && ReachingEnemyCells(g, next, enemy, Some(from)) != [])
    && (target.None? || target == Some(next) || KingAt(g, from))
  }

  /**
   * The two halves of the test: a King's step passes exactly when no enemy reaches
   * it with the King's square ignored, whatever the priority target; any other
   * figure's move passes exactly when there is no target or the move lands on it.
   */
  lemma MayInstallIff(g: Grid, from: Pos, next: Pos, enemy: Color, target: Option<Pos>)
    requires WellFormed(g) && InBounds(from) && InBounds(next)
    ensures KingAt(g, from) ==> (MayInstall(g, from, next, enemy, target) <==> ReachingEnemyCells(g, next, enemy, Some(from)) == [])
    ensures !KingAt(g, from) ==> (MayInstall(g, from, next, enemy, target) <==> target.None? || target == Some(next))
  {
  }

  /** A board, and the error that stopped the installation, if any. */
  datatype Installed = Installed(cells: Grid, fault: Option<Fault>)

  /**
   * `selectCell`'s callback applied to the squares of the walk in order: each
   * square that passes the test on the board `base` gets its move installed on
   * `g`; the first `setOnMoveAction` that throws stops the walk.
   */
  function InstallMoves(base: Grid, g: Grid, from: Pos, squares: seq<Pos>, enemy: Color, target: Option<Pos>): (r: Installed)
    requires WellFormed(base) && WellFormed(g) && InBounds(from) && AllInBounds(squares)
    ensures WellFormed(r.cells) && SameFigures(r.cells, g)
    ensures ActionsOnBoard(g) ==> ActionsOnBoard(r.cells)
    decreases |squares|
  {
    if squares == [] then Installed(g, None)
    else
      var next := squares[0];
      if !MayInstall(base, from, next, enemy, target) then InstallMoves(base, g, from, squares[1..], enemy, target)
      else
        match InstallMove(g, from, next)
        case Err(f) => Installed(g, Some(f))
        case Ok(g1) => InstallMoves(base, g1, from, squares[1..], enemy, target)
  }

  /**
   * `selectCell`: refuses a cell that is not Default or holds no figure; marks the
   * cell Active; walks the figure's pattern against the other colour, installing
   * the moves `MayInstall` allows; then records the selection. A throw from
   * `setOnMoveAction` or from the pawn walk leaves the moves installed so far.
   */
  function SelectCellOutcome(s: ManagerState, p: Pos): (r: Outcome)
    requires Sane(s) && InBounds(p)
    ensures Sane(r.state)
  {
    var c := At(s.cells, p);
    if c.status != CellStatus.Default then Outcome(s, Some(NotDefaultStatus))
    else if c.figure.None? then Outcome(s, Some(MissingFigure))
    else
      var g1 := SetStatus(s.cells, p, Active, c.action);
      var enemy := Opponent(c.figure.value.color);
      var w := PatternWalk(g1, p, enemy, None);
      var inst := InstallMoves(g1, g1, p, w.squares, enemy, s.gameInfo.priorityTargetCell);
      if inst.fault.Some? then Outcome(s.(cells := inst.cells), inst.fault)
      else if w.fault.Some? then Outcome(s.(cells := inst.cells), w.fault)
      else Outcome(s.(cells := inst.cells, selected := true, lastSelectedCell := Some(p)), None)
  }

  /**
   * `canBeatPriorityTarget`: whether the figure at `p`, walking its pattern
   * against the target's colour, reaches the priority target. Errors: no target,
   * an empty target, an empty cell, a target of the cell's own colour, and the
   * pawn walk's throw when it comes before the target.
   */
  function CanBeat(s: ManagerState, p: Pos): (r: Result<bool>)
    requires Sane(s) && InBounds(p)
    ensures s.gameInfo.priorityTargetCell.None? ==> r == Err(NoPriorityTarget)
    ensures r.Ok? ==>
      s.gameInfo.priorityTargetCell.Some? && IsEnemies(At(s.cells, p), At(s.cells, s.gameInfo.priorityTargetCell.value))
    ensures r == Ok(true) ==>
      var t := s.gameInfo.priorityTargetCell.value;
      t in PatternWalk(s.cells, p, At(s.cells, t).figure.value.color, None).squares
  {
    match s.gameInfo.priorityTargetCell
    case None => Err(NoPriorityTarget)
    case Some(t) =>
      if At(s.cells, t).figure.None? then Err(EmptyPriorityTarget)
      else if At(s.cells, p).figure.None? then Err(MissingFigure)
      else if At(s.cells, p).figure.value.color == At(s.cells, t).figure.value.color then Err(SameTeamTarget)
      else
        var w := PatternWalk(s.cells, p, At(s.cells, t).figure.value.color, None);
        if t in w.squares then Ok(true)
        else if w.fault.Some? then Err(w.fault.value)
        else Ok(false)
  }

  // ---------------------------------------------------------------------------
  // The game state
  // ---------------------------------------------------------------------------

  /** The cells among the first `n` of the row-major scan that hold a figure of `c`, in scan order. */
  function ScannedTeam(g: Grid, n: nat, c: Color): (r: seq<Pos>)
    requires WellFormed(g) && n <= Size * Size
    ensures AllInBounds(r)
  {
    if n == 0 then []
    else
      ScanPosIndex(n - 1);
      var q := ScanPos(n - 1);
      ScannedTeam(g, n - 1, c) + (if HoldsColor(g, q, c) then [q] else [])
  }

  /** `getOneTeamCells`: the cells holding a figure of `c`, in row-major order. */
  function TeamCells(g: Grid, c: Color): (r: seq<Pos>)
    requires WellFormed(g)
    ensures AllInBounds(r)
  {
    ScannedTeam(g, Size * Size, c)
  }

  /** A cell is among the first `n` scanned team cells exactly when it holds a figure of `c` and is scanned before `n`. */
  lemma {:induction false} ScannedTeamIff(g: Grid, n: nat, c: Color, q: Pos)
    requires WellFormed(g) && n <= Size * Size && InBounds(q)
    ensures q in ScannedTeam(g, n, c) <==> HoldsColor(g, q, c) && ScanIndex(q) < n
  {
    if n > 0 {
      ScannedTeamIff(g, n - 1, c, q);
      ScanPosIndex(n - 1);
      ScanIndexPos(q);
    }
  }

  /** A cell is among the team's cells exactly when it holds a figure of that colour. */
  lemma TeamCellsIff(g: Grid, c: Color, q: Pos)
    requires WellFormed(g) && InBounds(q)
    ensures q in TeamCells(g, c) <==> HoldsColor(g, q, c)
  {
    ScannedTeamIff(g, Size * Size, c, q);
    ScanIndexPos(q);
  }

  /** One more cell of the scan adds it to the team's cells when it holds a figure of `c`. */
  lemma TeamScanStep(g: Grid, n: nat, i: int, j: int, c: Color)
    requires WellFormed(g) && 0 <= i < Size && 0 <= j < Size && n == i * Size + j
    ensures ScannedTeam(g, n + 1, c) == ScannedTeam(g, n, c) + (if HoldsColor(g, Pos(i, j), c) then [Pos(i, j)] else [])
  {
    ScanIndexPos(Pos(i, j));
  }

  /** How many of the first `n` scanned cells lie on the two home rows of `c`. */
  function HomeCount(n: nat, c: Color): nat {
    if c == Black then (if n < 2 * Size then n else 2 * Size)
    else (if n < 6 * Size then 0 else n - 6 * Size)
  }

  /** On a board whose figures of colour `c` stand exactly on that colour's home rows, the scan finds one per home square. */
  lemma {:induction false} ScannedTeamCount(g: Grid, n: nat, c: Color)
    requires WellFormed(g) && n <= Size * Size
    requires forall q | InBounds(q) :: HoldsColor(g, q, c) == HomeRow(q.row, c)
    ensures |ScannedTeam(g, n, c)| == HomeCount(n, c)
  {
    if n > 0 {
      ScannedTeamCount(g, n - 1, c);
      ScanPosIndex(n - 1);
      assert HoldsColor(g, ScanPos(n - 1), c) == HomeRow((n - 1) / Size, c);
    }
  }

  /** `getOneTeamCells` on the start position finds sixteen figures of each colour. */
  lemma NewBoardSixteenEach(c: Color)
    ensures |TeamCells(NewBoardCells(), c)| == 16
  {
    NewBoardColors(c);
    ScannedTeamCount(NewBoardCells(), Size * Size, c);
  }

  /** Some figure on `ps` can move. */
  predicate SomeCanMove(g: Grid, ps: seq<Pos>)
    requires WellFormed(g) && AllInBounds(ps)
    decreases |ps|
  {
    ps != [] && (CanMoveFrom(g, ps[0]) || SomeCanMove(g, ps[1..]))
  }

  /** `SomeCanMove` holds exactly when one of the positions holds a figure that can move. */
  lemma {:induction false} SomeCanMoveIff(g: Grid, ps: seq<Pos>)
    requires WellFormed(g) && AllInBounds(ps)
    ensures SomeCanMove(g, ps) <==> exists i :: 0 <= i < |ps| && CanMoveFrom(g, ps[i])
    decreases |ps|
  {
    if ps != [] {
      SomeCanMoveIff(g, ps[1..]);
      if SomeCanMove(g, ps[1..]) {
        var i :| 0 <= i < |ps[1..]| && CanMoveFrom(g, ps[1..][i]);
        assert ps[i + 1] == ps[1..][i];
      }
      if i :| 0 <= i < |ps| && CanMoveFrom(g, ps[i]) {
        if i > 0 {
          assert ps[1..][i - 1] == ps[i];
        }
      }
    }
  }

  /** The result of `getNextGameState`: the state, the priority target it leaves, and its error. */
  datatype Verdict = Verdict(state: ChessGameStates, target: Option<Pos>, fault: Option<Fault>)

  /**
   * `getNextGameState` for the side `team`, with `target` the priority target
   * before the call. No King of `team`: error, target untouched. King attacked:
   * the first attacker becomes the target; Check if the King can move or an ally
   * (the King ignored) reaches that attacker, Checkmate otherwise. King safe: no
   * target; one figure per side gives Draw (an error unless both are Kings);
   * otherwise InProcess if some figure of `team` can move, Mate if none can.
   */
  function NextGameState(g: Grid, team: Color, target: Option<Pos>): (v: Verdict)
    requires WellFormed(g)
    ensures v.fault == Some(MissingKing) <==> FindKing(g, team).None?
    ensures v.fault.None? || v.fault == Some(MissingKing) || v.fault == Some(NonKingLastFigures)
    ensures v.fault.None? && FindKing(g, team).Some? && v.target.Some? ==> v.state == Check || v.state == Checkmate
    ensures v.fault.None? && v.target.None? ==> v.state == Draw || v.state == InProcess || v.state == Mate
  {
    match FindKing(g, team)
    case None => Verdict(ChessGameStates.Default, target, Some(MissingKing))
    case Some(k) => KingVerdict(g, team, k)
  }

  /** The verdict once the King of `team` is found at `k`. */
  function KingVerdict(g: Grid, team: Color, k: Pos): (v: Verdict)
    requires WellFormed(g) && InBounds(k) && At(g, k).figure.Some?
  {
    var enemy := if At(g, k).figure.value.color == White then Black else White;
    var reaching := ReachingEnemyCells(g, k, enemy, None);
    if reaching != [] then CheckVerdict(g, team, k, reaching[0])
    else QuietVerdict(g, team, enemy)
  }

  /**
   * Without a King the target is left as it was. Otherwise a target is set exactly
   * when an enemy reaches the King, and it is one of the figures that do.
   */
  lemma NextGameStateTarget(g: Grid, team: Color, target: Option<Pos>)
    requires WellFormed(g)
    ensures var v := NextGameState(g, team, target);
      && (FindKing(g, team).None? ==> v == Verdict(ChessGameStates.Default, target, Some(MissingKing)))
      && (FindKing(g, team).Some? ==>
            var attackers := ReachingEnemyCells(g, FindKing(g, team).value, Opponent(team), None);
            && (v.target.Some? <==> attackers != [])
            && (v.target.Some? ==> v.target.value in attackers))
  {
    var v := NextGameState(g, team, target);
    if FindKing(g, team).Some? {
      var k := FindKing(g, team).value;
      var enemy := if At(g, k).figure.value.color == White then Black else White;
      assert enemy == Opponent(team);
      var attackers := ReachingEnemyCells(g, k, enemy, None);
      if attackers != [] {
        assert attackers[0] in attackers;
        assert v == CheckVerdict(g, team, k, attackers[0]);
      } else {
        assert v == QuietVerdict(g, team, enemy);
      }
    }
  }

  /** The priority target stays on the board. */
  lemma NextGameStateOnBoard(g: Grid, team: Color, target: Option<Pos>)
    requires WellFormed(g) && OnBoard(target)
    ensures OnBoard(NextGameState(g, team, target).target)
  {
    NextGameStateTarget(g, team, target);
  }

  /** The King at `k` is attacked, first by `attacker`, which becomes the priority target. */
  function CheckVerdict(g: Grid, team: Color, k: Pos, attacker: Pos): (v: Verdict)
    requires WellFormed(g) && InBounds(k) && InBounds(attacker)
  {
    Verdict(CheckState(g, team, k, attacker), Some(attacker), None)
  }

  /** Check when the King can move or an ally (the King ignored) reaches the attacker; Checkmate otherwise. */
  function CheckState(g: Grid, team: Color, k: Pos, attacker: Pos): ChessGameStates
    requires WellFormed(g) && InBounds(k) && InBounds(attacker)
  {
    if CanMoveFrom(g, k) || ReachingEnemyCells(g, attacker, team, Some(k)) != [] then Check else Checkmate
  }

  /** The King of `team` is not attacked: no priority target. */
  function QuietVerdict(g: Grid, team: Color, enemy: Color): (v: Verdict)
    requires WellFormed(g)
  {
    Verdict(QuietState(g, team, enemy), None, QuietFault(g, team, enemy))
  }

  /** Each side has one figure left. */
  predicate LastFigures(g: Grid, team: Color, enemy: Color)
    requires WellFormed(g)
  {
    |TeamCells(g, team)| == 1 && |TeamCells(g, enemy)| == 1
  }

  /** One figure per side: Draw if both are Kings; otherwise InProcess if a figure of `team` can move, Mate if none can. */
  function QuietState(g: Grid, team: Color, enemy: Color): ChessGameStates
    requires WellFormed(g)
  {
    if LastFigures(g, team, enemy) then
      if KingAt(g, TeamCells(g, team)[0]) && KingAt(g, TeamCells(g, enemy)[0]) then Draw else ChessGameStates.Default
    else if SomeCanMove(g, TeamCells(g, team)) then InProcess
    else Mate
  }

  /** The error thrown when the last figures are not both Kings. */
  function QuietFault(g: Grid, team: Color, enemy: Color): Option<Fault>
    requires WellFormed(g)
  {
    if LastFigures(g, team, enemy) && !(KingAt(g, TeamCells(g, team)[0]) && KingAt(g, TeamCells(g, enemy)[0]))
    then Some(NonKingLastFigures)
    else None
  }

  /**
   * `switchPlayer`: the other side is to move; its state is computed, and a
   * terminal state resets every cell. A throw of `getNextGameState` leaves the
   * side switched and the state unchanged.
   */
  function SwitchPlayerOutcome(s: ManagerState): (r: Outcome)
    requires Sane(s)
    ensures Sane(r.state)
  {
    var team := if s.gameInfo.currentTeamColor == White then Black else White;
    NextGameStateOnBoard(s.cells, team, s.gameInfo.priorityTargetCell);
    var v := NextGameState(s.cells, team, s.gameInfo.priorityTargetCell);
    var s1 := s.(gameInfo := s.gameInfo.(currentTeamColor := team, priorityTargetCell := v.target));
    if v.fault.Some? then Outcome(s1, v.fault)
    else
      var s2 := s1.(gameInfo := s1.gameInfo.(gameState := v.state));
      if IsTerminal(v.state) then Outcome(s2.(cells := ResetCells(s2.cells)), None)
      else Outcome(s2, None)
  }

  /** The action of the cell at `p`: the installed move, then `switchPlayer` as its post-move hook. */
  function RunActionOutcome(s: ManagerState, p: Pos): (r: Outcome)
    requires Sane(s) && InBounds(p)
    ensures Sane(r.state)
  {
    match At(s.cells, p).action
    case NoAction => Outcome(s, None)
    case MoveAction(from, to) =>
      RelocateKeepsActions(s.cells, from, to);
      SwitchPlayerOutcome(s.(cells := Relocate(s.cells, from, to)))
  }

  lemma RelocateKeepsActions(g: Grid, from: Pos, to: Pos)
    requires WellFormed(g) && InBounds(from) && InBounds(to) && ActionsOnBoard(g)
    ensures ActionsOnBoard(Relocate(g, from, to))
    ensures forall q | InBounds(q) :: At(Relocate(g, from, to), q).status == At(g, q).status
  {
    var r := Relocate(g, from, to);
    forall q | InBounds(q)
      ensures At(r, q).action == At(g, q).action && At(r, q).status == At(g, q).status
    {
      if q == from || q == to {
      }
    }
  }

  // ---------------------------------------------------------------------------
  // A click
  // ---------------------------------------------------------------------------

  /**
   * A click on a cell while a cell is selected, on a Default cell: the cells are
   * reset; a teammate of the selected figure becomes selected instead (in Check
   * only if it can reach the priority target); anything else cancels.
   */
  function ClickDefaultWhileSelected(s: ManagerState, p: Pos): (r: Outcome)
    requires Sane(s) && InBounds(p)
    ensures Sane(r.state)
  {
    var s1 := s.(cells := ResetCells(s.cells));
    var prev := s.lastSelectedCell;
    if !(prev.Some? && IsTeammates(At(s1.cells, prev.value), At(s1.cells, p))) then Outcome(Cancel(s1), None)
    else if s.gameInfo.gameState == Check then
      match CanBeat(s1, p)
      case Err(f) => Outcome(s1, Some(f))
      case Ok(canBeat) => if canBeat then SelectCellOutcome(s1, p) else Outcome(Cancel(s1), None)
    else SelectCellOutcome(s1, p)
  }

  /** The figure at `p` belongs to the side to move and its cell is Default. */
  predicate IsCurrentTeamCell(s: ManagerState, p: Pos)
    requires Sane(s) && InBounds(p)
  {
    var c := At(s.cells, p);
    c.figure.Some? && c.status == CellStatus.Default && c.figure.value.color == s.gameInfo.currentTeamColor
  }

  /**
   * A click with nothing selected: a Default cell of the side to move is selected
   * in states Default and InProcess; in Check only a King that can move or a
   * figure that reaches the priority target; nothing happens otherwise.
   */
  function ClickWhileIdle(s: ManagerState, p: Pos): (r: Outcome)
    requires Sane(s) && InBounds(p)
    ensures Sane(r.state)
  {
    if !IsCurrentTeamCell(s, p) then Outcome(s, None)
    else
      var state := s.gameInfo.gameState;
      if state == ChessGameStates.Default || state == InProcess then SelectCellOutcome(s, p)
      else if state == Check then
        if KingAt(s.cells, p) && CanMoveFrom(s.cells, p) then SelectCellOutcome(s, p)
        else
          match CanBeat(s, p)
          case Err(f) => Outcome(s, Some(f))
          case Ok(canBeat) => if canBeat then SelectCellOutcome(s, p) else Outcome(s, None)
      else Outcome(s, None)
  }

  /** `onAction`: the click on the cell at `p`. */
  function OnActionOutcome(s: ManagerState, p: Pos): (r: Outcome)
    requires Sane(s) && InBounds(p)
    ensures Sane(r.state)
  {
    if !s.selected then ClickWhileIdle(s, p)
    else
      match At(s.cells, p).status
      case Default => ClickDefaultWhileSelected(s, p)
      case Active => Outcome(Cancel(s), None)
      case OnWay => RunThenCancel(s, p)
      case Target => RunThenCancel(s, p)
  }

  /** The cell's action runs, then the selection is cancelled; a throw in the action skips the cancel. */
  function RunThenCancel(s: ManagerState, p: Pos): (r: Outcome)
    requires Sane(s) && InBounds(p)
    ensures Sane(r.state)
  {
    var o := RunActionOutcome(s, p);
    if o.fault.Some? then o else Outcome(Cancel(o.state), None)
  }

  // ---------------------------------------------------------------------------
  // The class
  // ---------------------------------------------------------------------------

  class ChessboardManager {
    var chessboard: Chessboard
    var movesManager: ChessMovesManager
    var selected: bool
    var lastSelectedCell: Option<Pos>
    var gameInfo: GameInfo

    function Snapshot(): ManagerState
      reads this, chessboard
    {
      ManagerState(chessboard.cells, selected, lastSelectedCell, gameInfo)
    }

    /** The move generator works on the manager's own board, and the state is sane. */
    ghost predicate Valid()
      reads this, chessboard, movesManager
    {
      movesManager.chessboard == chessboard && Sane(Snapshot())
    }

    /** The constructor: a fresh move generator, White to move, every cell reset. */
    constructor (board: Chessboard)
      requires WellFormed(board.cells)
      modifies board
      ensures Valid() && chessboard == board && fresh(movesManager)
      ensures board.cells == ResetCells(old(board.cells))
      ensures !selected && lastSelectedCell == None && gameInfo == StartInfo
    {
      chessboard := board;
      movesManager := new ChessMovesManager(board);
      selected := false;
      lastSelectedCell := None;
      gameInfo := StartInfo;
      new;
      SetDefaultCellsState();
    }

    /** `setNewChessboard`: as the constructor, but the selection is left as it was. */
    method SetNewChessboard(board: Chessboard) returns (cells: Grid)
      requires Valid() && WellFormed(board.cells)
      modifies this, board
      ensures Valid() && chessboard == board && fresh(movesManager)
      ensures board.cells == ResetCells(old(board.cells)) && cells == board.cells
      ensures selected == old(selected) && lastSelectedCell == old(lastSelectedCell) && gameInfo == StartInfo
    {
      chessboard := board;
      movesManager := new ChessMovesManager(board);
      gameInfo := StartInfo;
      SetDefaultCellsState();
      cells := chessboard.cells;
    }

    /** `setDefaultCellsState`: the nested loops resetting every cell's status and action. */
    method SetDefaultCellsState()
      requires WellFormed(chessboard.cells)
      modifies chessboard
      ensures chessboard.cells == ResetCells(old(chessboard.cells))
    {
      ghost var g := chessboard.cells;
      for i := 0 to Size
        invariant WellFormed(chessboard.cells)
        invariant forall q | InBounds(q) :: At(chessboard.cells, q) == if q.row < i then ResetCell(At(g, q)) else At(g, q)
      {
        for j := 0 to Size
          invariant WellFormed(chessboard.cells)
          invariant forall q | InBounds(q) ::
            At(chessboard.cells, q) == if q.row < i || (q.row == i && q.col < j) then ResetCell(At(g, q)) else At(g, q)
        {
          chessboard.cells := SetStatus(chessboard.cells, Pos(i, j), CellStatus.Default, NoAction);
        }
      }
      GridExtensionality(chessboard.cells, ResetCells(g));
    }

    /** `cancelSelect`. */
    method CancelSelect()
      requires Valid()
      modifies this, chessboard
      ensures Valid() && chessboard == old(chessboard) && movesManager == old(movesManager)
      ensures Snapshot() == Cancel(old(Snapshot()))
    {
      selected := false;
      SetDefaultCellsState();
    }

    /** `getOneTeamCells`: the nested loops pushing every cell that holds a figure of `teamColor`. */
    method GetOneTeamCells(teamColor: Color) returns (result: seq<Pos>)
      requires WellFormed(chessboard.cells)
      ensures result == TeamCells(chessboard.cells, teamColor)
    {
      var g := chessboard.cells;
      result := [];
      ghost var scanned := 0;
      for i := 0 to Size
        invariant scanned == i * Size
        invariant result == ScannedTeam(g, scanned, teamColor)
      {
        for j := 0 to Size
          invariant scanned == i * Size + j
          invariant result == ScannedTeam(g, scanned, teamColor)
        {
          TeamScanStep(g, scanned, i, j, teamColor);
          var cell := At(g, Pos(i, j));
          if cell.figure.Some? && cell.figure.value.color == teamColor {
            result := result + [Pos(i, j)];
          }
          scanned := scanned + 1;
        }
      }
    }

    /** The loop of `getNextGameState` asking `canMoveFromCell` of each figure in turn. */
    method FindMovable(cells: seq<Pos>) returns (found: bool)
      requires movesManager.chessboard == chessboard && WellFormed(chessboard.cells) && AllInBounds(cells)
      ensures found == SomeCanMove(chessboard.cells, cells)
    {
      ghost var g := chessboard.cells;
      found := false;
      for i := 0 to |cells|
        invariant SomeCanMove(g, cells[i..]) == SomeCanMove(g, cells)
      {
        var canMove := movesManager.CanMoveFromCell(cells[i]);
        assert cells[i..][0] == cells[i] && cells[i..][1..] == cells[i + 1..];
        if canMove {
          return true;
        }
      }
      assert cells[|cells|..] == [];
    }

    /** `getNextGameState`: classifies the position for `teamColor` and records the priority target. */
    method GetNextGameState(teamColor: Color) returns (state: ChessGameStates, fault: Option<Fault>)
      requires Valid()
      modifies this
      ensures Valid() && chessboard == old(chessboard) && movesManager == old(movesManager)
      ensures selected == old(selected) && lastSelectedCell == old(lastSelectedCell)
      ensures var v := NextGameState(chessboard.cells, teamColor, old(gameInfo.priorityTargetCell));
        && fault == v.fault && (fault.None? ==> state == v.state)
        && gameInfo == old(gameInfo).(priorityTargetCell := v.target)
    {
      var kingCell := movesManager.FindKingCell(teamColor);
      var target;
      state, fault, target := Classify(teamColor, kingCell, gameInfo.priorityTargetCell);
      gameInfo := gameInfo.(priorityTargetCell := target);
    }

    /** The part of `getNextGameState` after the search for the King of `teamColor`, which gave `kingCell`. */
    method Classify(teamColor: Color, kingCell: Option<Pos>, oldTarget: Option<Pos>)
      returns (state: ChessGameStates, fault: Option<Fault>, target: Option<Pos>)
      requires movesManager.chessboard == chessboard && WellFormed(chessboard.cells) && OnBoard(oldTarget)
      requires kingCell == FindKing(chessboard.cells, teamColor)
      ensures var v := NextGameState(chessboard.cells, teamColor, oldTarget);
        && fault == v.fault && (fault.None? ==> state == v.state) && target == v.target
      ensures OnBoard(target)
    {
      if kingCell.None? {
        return ChessGameStates.Default, Some(MissingKing), oldTarget;
      }
      var g := chessboard.cells;
      var king := kingCell.value;
      var enemyColor := if At(g, king).figure.value.color == White then Black else White;
      var reachingEnemyCells := movesManager.GetReachingEnemyCells(king, enemyColor, None);
      if |reachingEnemyCells| > 0 {
        var enemyCell := reachingEnemyCells[0];
        assert enemyCell in reachingEnemyCells;
        state := ClassifyCheck(teamColor, king, enemyCell);
        return state, None, Some(enemyCell);
      }
      state, fault := ClassifyQuiet(teamColor, enemyColor);
      target := None;
    }

    /** The branch of `getNextGameState` for an attacked King. */
    method ClassifyCheck(teamColor: Color, king: Pos, enemyCell: Pos) returns (state: ChessGameStates)
      requires movesManager.chessboard == chessboard && WellFormed(chessboard.cells) && InBounds(king) && InBounds(enemyCell)
      ensures state == CheckState(chessboard.cells, teamColor, king, enemyCell)
    {
      var canMove := movesManager.CanMoveFromCell(king);
      if canMove {
        return Check;
      }
      var reachingAlliesCells := movesManager.GetReachingEnemyCells(enemyCell, teamColor, Some(king));
      if |reachingAlliesCells| > 0 {
        return Check;
      }
      return Checkmate;
    }

    /** The branch of `getNextGameState` for a King that is not attacked. */
    method ClassifyQuiet(teamColor: Color, enemyColor: Color) returns (state: ChessGameStates, fault: Option<Fault>)
      requires movesManager.chessboard == chessboard && WellFormed(chessboard.cells)
      ensures fault == QuietFault(chessboard.cells, teamColor, enemyColor)
      ensures fault.None? ==> state == QuietState(chessboard.cells, teamColor, enemyColor)
    {
      var g := chessboard.cells;
      var teamCells := GetOneTeamCells(teamColor);
      var enemyCells := GetOneTeamCells(enemyColor);
      if |teamCells| == 1 && |enemyCells| == 1 {
        if !KingAt(g, teamCells[0]) || !KingAt(g, enemyCells[0]) {
          return ChessGameStates.Default, Some(NonKingLastFigures);
        }
        return Draw, None;
      }
      var canMove := FindMovable(teamCells);
      if canMove {
        return InProcess, None;
      }
      return Mate, None;
    }

    /** `switchPlayer`; the end-of-game and switch callbacks are user-interface hooks. */
    method SwitchPlayer() returns (fault: Option<Fault>)
      requires Valid()
      modifies this, chessboard
      ensures Valid() && chessboard == old(chessboard) && movesManager == old(movesManager)
      ensures var o := SwitchPlayerOutcome(old(Snapshot()));
        Snapshot() == o.state && fault == o.fault
    {
      var team := if gameInfo.currentTeamColor == White then Black else White;
      gameInfo := gameInfo.(currentTeamColor := team);
      var state;
      state, fault := GetNextGameState(team);
      if fault.Some? {
        return;
      }
      gameInfo := gameInfo.(gameState := state);
      if state == Mate || state == Checkmate || state == Draw {
        SetDefaultCellsState();
      }
    }

    /** `selectCell`. */
    method SelectCell(p: Pos) returns (fault: Option<Fault>)
      requires Valid() && InBounds(p)
      modifies this, chessboard
      ensures Valid() && chessboard == old(chessboard) && movesManager == old(movesManager)
      ensures var o := SelectCellOutcome(old(Snapshot()), p);
        Snapshot() == o.state && fault == o.fault
    {
      var cell := At(chessboard.cells, p);
      if cell.status != CellStatus.Default {
        return Some(NotDefaultStatus);
      }
      if cell.figure.None? {
        return Some(MissingFigure);
      }
      chessboard.cells := SetStatus(chessboard.cells, p, Active, cell.action);
      var enemyColor := if cell.figure.value.color == Black then White else Black;
      var walk := movesManager.ProcessForCellsFigurePattern(p, enemyColor, None);
      fault := InstallAlong(p, walk.squares, enemyColor);
      if fault.Some? {
        return;
      }
      if walk.fault.Some? {
        return walk.fault;
      }
      selected := true;
      lastSelectedCell := Some(p);
    }

    /** `selectCell`'s callback `process`, applied to each square of the walk in turn. */
    method InstallAlong(from: Pos, squares: seq<Pos>, enemyColor: Color) returns (fault: Option<Fault>)
      requires Valid() && InBounds(from) && AllInBounds(squares)
      modifies chessboard
      ensures Valid()
      ensures var r := InstallMoves(old(chessboard.cells), old(chessboard.cells), from, squares, enemyColor, gameInfo.priorityTargetCell);
        chessboard.cells == r.cells && fault == r.fault
    {
      ghost var base := chessboard.cells;
      var target := gameInfo.priorityTargetCell;
      fault := None;
      for k := 0 to |squares|
        invariant WellFormed(chessboard.cells) && SameFigures(chessboard.cells, base) && fault.None?
        invariant InstallMoves(base, chessboard.cells, from, squares[k..], enemyColor, target)
          == InstallMoves(base, base, from, squares, enemyColor, target)
      {
        var next := squares[k];
        assert squares[k..][0] == next && squares[k..][1..] == squares[k + 1..];
        var isKing := KingAt(chessboard.cells, from);
        assert isKing == KingAt(base, from);
        if isKing {
          var reachingEnemies := movesManager.GetReachingEnemyCells(next, enemyColor, Some(from));
          ReachingSameFigures(chessboard.cells, base, next, enemyColor, Some(from));
          if |reachingEnemies| > 0 {
            continue;
          }
        }
        if target.None? || target == Some(next) || isKing {
          fault := movesManager.SetOnMoveAction(from, next);
          if fault.Some? {
            return;
          }
        }
      }
      assert squares[|squares|..] == [];
    }

    /** `canBeatPriorityTarget`. */
    method CanBeatPriorityTarget(p: Pos) returns (r: Result<bool>)
      requires Valid() && InBounds(p)
      ensures r == CanBeat(Snapshot(), p)
    {
      var g := chessboard.cells;
      if gameInfo.priorityTargetCell.None? {
        return Err(NoPriorityTarget);
      }
      var target := gameInfo.priorityTargetCell.value;
      if At(g, target).figure.None? {
        return Err(EmptyPriorityTarget);
      }
      if At(g, p).figure.None? {
        return Err(MissingFigure);
      }
      var targetColor := At(g, target).figure.value.color;
      if At(g, p).figure.value.color == targetColor {
        return Err(SameTeamTarget);
      }
      var walk := movesManager.ProcessForCellsFigurePattern(p, targetColor, None);
      var canBeat := FindTarget(walk.squares, target);
      if canBeat {
        return Ok(true);
      }
      if walk.fault.Some? {
        return Err(walk.fault.value);
      }
      return Ok(false);
    }

    /** The callback `priorityTargetCellSearchProcess`: stops at the target. */
    method FindTarget(squares: seq<Pos>, target: Pos) returns (canBeat: bool)
      ensures canBeat == (target in squares)
    {
      canBeat := false;
      for i := 0 to |squares|
        invariant target !in squares[..i]
      {
        if squares[i] == target {
          return true;
        }
        assert squares[..i + 1] == squares[..i] + [squares[i]];
      }
      assert squares[..|squares|] == squares;
    }

    /** The cell's action: the installed move, then `switchPlayer` as the post-move hook. */
    method RunAction(p: Pos) returns (fault: Option<Fault>)
      requires Valid() && InBounds(p)
      modifies this, chessboard
      ensures Valid() && chessboard == old(chessboard) && movesManager == old(movesManager)
      ensures var o := RunActionOutcome(old(Snapshot()), p);
        Snapshot() == o.state && fault == o.fault
    {
      match At(chessboard.cells, p).action
      case NoAction =>
        return None;
      case MoveAction(from, to) =>
        RelocateKeepsActions(chessboard.cells, from, to);
        movesManager.RunMoveAction(from, to);
        fault := SwitchPlayer();
    }

    /** `onAction`; the final refresh of the cell components is a user-interface hook. */
    method OnAction(p: Pos) returns (fault: Option<Fault>)
      requires Valid() && InBounds(p)
      modifies this, chessboard
      ensures Valid() && chessboard == old(chessboard) && movesManager == old(movesManager)
      ensures var o := OnActionOutcome(old(Snapshot()), p);
        Snapshot() == o.state && fault == o.fault
    {
      var cell := At(chessboard.cells, p);
      if selected {
        match cell.status
        case Default =>
          SetDefaultCellsState();
          var prevCell := lastSelectedCell;
          var isNextTeammate := prevCell.Some? && IsTeammates(At(chessboard.cells, prevCell.value), At(chessboard.cells, p));
          if isNextTeammate {
            if gameInfo.gameState == Check {
              var canBeat := CanBeatPriorityTarget(p);
              if canBeat.Err? {
                return Some(canBeat.fault);
              }
              if canBeat.value {
                fault := SelectCell(p);
              } else {
                CancelSelect();
                fault := None;
              }
            } else {
              fault := SelectCell(p);
            }
          } else {
            CancelSelect();
            fault := None;
          }
        case Active =>
          CancelSelect();
          fault := None;
        case _ =>
          fault := RunAction(p);
          if fault.Some? {
            return;
          }
          CancelSelect();
      } else {
        var isCurrentTeamCell := cell.figure.Some? && cell.status == CellStatus.Default
          && cell.figure.value.color == gameInfo.currentTeamColor;
        fault := None;
        if isCurrentTeamCell {
          var gameState := gameInfo.gameState;
          if gameState == ChessGameStates.Default || gameState == InProcess {
            fault := SelectCell(p);
          } else if gameState == Check {
            var itIsKing := KingAt(chessboard.cells, p);
            var canMove := movesManager.CanMoveFromCell(p);
            if itIsKing && canMove {
              fault := SelectCell(p);
            } else {
              var canBeat := CanBeatPriorityTarget(p);
              if canBeat.Err? {
                return Some(canBeat.fault);
              }
              if canBeat.value {
                fault := SelectCell(p);
              }
            }
          }
        }
      }
    }
  }
}
